/** The greeting of the home page. */
module IndexPage {
  import opened Wrappers
  import opened Text
  import opened AuthStore

  /** The name the greeting uses: the full name up to its first space, or
      "Student" when that is empty or there is no profile. */
  function DisplayName(profile: Option<Profile>): string {
    match profile
    case None => "Student"
    case Some(p) =>
      var first := Split(p.fullName, ' ')[0];
      if first == "" then "Student" else first
  }

  /** The greeting is the name up to its first space, or "Student" when that
      is empty: no profile, an empty name, or a name starting with a space. */
  lemma DisplayNameIsFirstWord(profile: Option<Profile>)
    ensures ' ' !in DisplayName(profile)
    ensures profile.None? ==> DisplayName(profile) == "Student"
    ensures profile.Some? && (profile.value.fullName == "" || profile.value.fullName[0] == ' ') ==>
      DisplayName(profile) == "Student"
    ensures profile.Some? && profile.value.fullName != "" && profile.value.fullName[0] != ' ' ==>
      var name, first := profile.value.fullName, DisplayName(profile);
      && 0 < |first| <= |name|
      && first == name[..|first|]
      && (|first| == |name| || name[|first|] == ' ')
  {
    if profile.Some? {
      var name := profile.value.fullName;
      var first := Split(name, ' ')[0];
      if name != "" && name[0] == ' ' {
        assert |first| == 0;
      }
      if name != "" && name[0] != ' ' {
        assert first != "";
      }
    }
  }
}
