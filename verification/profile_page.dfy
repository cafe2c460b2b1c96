/** What the Profile page derives from the store: the avatar initials and the
    fallbacks of each displayed field. */
module ProfilePage {
  import opened Wrappers
  import opened Text
  import opened AuthStore

  /** The avatar initials: the first character of each space-separated piece
      of the full name, upper-cased and run together, or "U" when that leaves
      nothing or there is no profile. */
  function Initials(profile: Option<Profile>): string {
    match profile
    case None => "U"
    case Some(p) =>
      var letters := ToUpper(FirstChars(Split(p.fullName, ' ')));
      if letters == "" then "U" else letters
  }

  /** The initials are the upper-cased first letters of the space-separated
      words of the name, one per word, empty pieces contributing nothing; with
      no profile or no word at all they are "U". */
  lemma InitialsAreWordStarts(profile: Option<Profile>)
    ensures profile.None? ==> Initials(profile) == "U"
    ensures profile.Some? && WordStarts(profile.value.fullName, ' ') == "" ==> Initials(profile) == "U"
    ensures profile.Some? && WordStarts(profile.value.fullName, ' ') != "" ==>
      Initials(profile) == ToUpper(WordStarts(profile.value.fullName, ' '))
  {
    if profile.Some? {
      FirstCharsOfSplit(profile.value.fullName, ' ');
    }
  }

  /** One initial per non-empty piece of the name, whenever there is one. */
  lemma InitialsCount(p: Profile)
    requires CountNonEmpty(Split(p.fullName, ' ')) > 0
    ensures |Initials(Some(p))| == CountNonEmpty(Split(p.fullName, ' '))
  {
    FirstCharsLength(Split(p.fullName, ' '));
  }

  /** An empty or all-space name gives "U". */
  lemma BlankNameGivesU(p: Profile)
    requires forall i :: 0 <= i < |p.fullName| ==> p.fullName[i] == ' '
    ensures Initials(Some(p)) == "U"
  {
    WordStartsEmptyIff(p.fullName, ' ');
    InitialsAreWordStarts(Some(p));
  }

  /** A string, or `fallback` when it is empty (`x || fallback`). */
  function OrElse(s: string, fallback: string): (r: string)
    ensures r == (if s == "" then fallback else s)
  {
    if s == "" then fallback else s
  }

  /** The fields as the page shows them (not editing). */
  datatype ProfileView = ProfileView(
    heading: string,
    fullName: string,
    email: Option<string>,
    matricNumber: string,
    phoneNumber: string,
    balance: real)

  /** The page's fields: each shows the profile's value, or its fallback when
      the value is empty or there is no profile; the e-mail falls back to the
      account's. */
  function View(profile: Option<Profile>, user: Option<User>): (v: ProfileView)
    ensures profile.None? ==>
      v == ProfileView("User", "Not set", if user.Some? then Some(user.value.email) else None,
                       "Not set", "Not set", 0.0)
    ensures profile.Some? ==>
      && v.heading == OrElse(profile.value.fullName, "User")
      && v.fullName == OrElse(profile.value.fullName, "Not set")
      && v.matricNumber == OrElse(profile.value.matricNumber, "Not set")
      && v.phoneNumber == OrElse(profile.value.phoneNumber.GetOr(""), "Not set")
      && v.balance == profile.value.accountBalance
    ensures v.email.Some? <==> (profile.Some? && profile.value.email != "") || user.Some?
    ensures profile.Some? && profile.value.email != "" ==> v.email == Some(profile.value.email)
    ensures (profile.None? || profile.value.email == "") ==>
      v.email == (if user.Some? then Some(user.value.email) else None)
  {
    var name := if profile.Some? then profile.value.fullName else "";
    var matric := if profile.Some? then profile.value.matricNumber else "";
    var phone := if profile.Some? then profile.value.phoneNumber.GetOr("") else "";
    var profileEmail := if profile.Some? then profile.value.email else "";
    var email := if profileEmail != "" then Some(profileEmail)
                 else if user.Some? then Some(user.value.email) else None;
    ProfileView(OrElse(name, "User"), OrElse(name, "Not set"), email, OrElse(matric, "Not set"),
                OrElse(phone, "Not set"), BalanceOrZero(profile))
  }

  /** Name, heading, matric number and phone number never show blank, and the
      e-mail line is empty only when neither the profile nor the account has
      an address to offer. */
  lemma ViewNeverBlank(profile: Option<Profile>, user: Option<User>)
    ensures var v := View(profile, user);
      v.heading != "" && v.fullName != "" && v.matricNumber != "" && v.phoneNumber != ""
    ensures View(profile, user).email.None? <==> (profile.None? || profile.value.email == "") && user.None?
  {
  }
}
