/** The Cards page: the card-holder line, the copied number, and the two
    toggles. The card data are constants of the page. */
module CardsPage {
  import opened Wrappers
  import opened Text
  import opened AuthStore
  import opened Toasts

  const MaskedNumber := "5399 **** **** 7823"
  const FullNumber := "5399 8234 5678 7823"

  /** The name printed on the card: the profile's full name in capitals, or
      "CARD HOLDER" when there is no name to print. */
  function CardHolder(profile: Option<Profile>): (r: string)
    ensures profile.None? || profile.value.fullName == "" ==> r == "CARD HOLDER"
    ensures profile.Some? && profile.value.fullName != "" ==> r == ToUpper(profile.value.fullName)
  {
    match profile
    case None => "CARD HOLDER"
    case Some(p) =>
      var upper := ToUpper(p.fullName);
      if upper == "" then "CARD HOLDER" else upper
  }

  /** `copyCardNumber`: the full number with every white-space character
      removed, written to the clipboard. */
  function CopiedNumber(): string {
    RemoveWhitespace(FullNumber)
  }

  /** The clipboard gets the sixteen digits and nothing else. */
  lemma CopiedNumberIsDigits()
    ensures CopiedNumber() == "5399823456787823"
    ensures RemoveWhitespace(CopiedNumber()) == CopiedNumber()
  {
    StripGroups(FullNumber);
    RemoveWhitespaceFixpoint(CopiedNumber());
  }

  /** The four digit groups of the card number lose only their separating spaces. */
  lemma StripGroups(n: string)
    requires n == "5399" + " 8234" + " 5678" + " 7823"
    ensures RemoveWhitespace(n) == "5399823456787823"
  {
    StripEachGroup();
    RemoveWhitespaceAppend4("5399", " 8234", " 5678", " 7823");
    assert "5399" + "8234" + "5678" + "7823" == "5399823456787823";
  }

  lemma StripEachGroup()
    ensures RemoveWhitespace("5399") == "5399"
    ensures RemoveWhitespace(" 8234") == "8234"
    ensures RemoveWhitespace(" 5678") == "5678"
    ensures RemoveWhitespace(" 7823") == "7823"
  {
    var a, b, c, d := "5399", " 8234", " 5678", " 7823";
    assert RemoveWhitespace(a) == "5399" by { DigitsKept(a); }
    assert RemoveWhitespace(b) == "8234" by { DigitsKept(b[1..]); }
    assert RemoveWhitespace(c) == "5678" by { DigitsKept(c[1..]); }
    assert RemoveWhitespace(d) == "7823" by { DigitsKept(d[1..]); }
  }

  lemma RemoveWhitespaceAppend4(a: string, b: string, c: string, d: string)
    ensures RemoveWhitespace(a + b + c + d)
         == RemoveWhitespace(a) + RemoveWhitespace(b) + RemoveWhitespace(c) + RemoveWhitespace(d)
  {
    RemoveWhitespaceAppend(a + b + c, d);
    RemoveWhitespaceAppend(a + b, c);
    RemoveWhitespaceAppend(a, b);
  }

  lemma DigitsKept(s: string)
    requires forall i :: 0 <= i < |s| ==> '0' <= s[i] <= '9'
    ensures RemoveWhitespace(s) == s
  {
    RemoveWhitespaceFixpoint(s);
  }

  /** The number shown on the card face. */
  function ShownNumber(showCardNumber: bool): (r: string)
    ensures r == MaskedNumber <==> !showCardNumber
  {
    if showCardNumber then FullNumber else MaskedNumber
  }

  /** The show/hide button. */
  function ToggleShow(showCardNumber: bool): (r: bool)
    ensures r != showCardNumber
  {
    !showCardNumber
  }

  /** The lock button (`toggleCardLock`): flip the flag; the toast is computed from the old
      value, so its title names the new state. */
  function ToggleLock(locked: bool): (r: (bool, Toast))
    ensures r.0 != locked
    ensures r.1.title == (if r.0 then "Card Locked" else "Card Unlocked")
    ensures !r.1.destructive
  {
    (!locked,
     if locked then Toast("Card Unlocked", "Your card is now active for transactions", false)
     else Toast("Card Locked", "Your card is now locked. No transactions can be made.", false))
  }

  /** The holder line is always in capitals: it has no lower-case ASCII
      letter, and upper-casing it again changes nothing. */
  lemma CardHolderIsUpperCase(profile: Option<Profile>)
    ensures forall i :: 0 <= i < |CardHolder(profile)| ==> !('a' <= CardHolder(profile)[i] <= 'z')
    ensures ToUpper(CardHolder(profile)) == CardHolder(profile)
  {
    var r := CardHolder(profile);
    if profile.Some? && profile.value.fullName != "" {
      ToUpperIdempotent(profile.value.fullName);
    } else {
      assert r == "CARD HOLDER";
      assert forall i :: 0 <= i < |r| ==> ToUpperChar(r[i]) == r[i];
    }
  }

  /** Pressing either button twice restores the starting state, and every
      press of the show button switches the number on the card face. */
  lemma TogglesUndoThemselves(showCardNumber: bool, locked: bool)
    ensures ToggleShow(ToggleShow(showCardNumber)) == showCardNumber
    ensures ToggleLock(ToggleLock(locked).0).0 == locked
    ensures ToggleLock(ToggleLock(locked).0).1 != ToggleLock(locked).1
    ensures ShownNumber(ToggleShow(showCardNumber)) != ShownNumber(showCardNumber)
  {
  }
}
