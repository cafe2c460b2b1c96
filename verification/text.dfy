/** The JavaScript string operations the pages rely on: `trim()`, the `\s`
    character class, `split(" ")`, `join`, `includes` and an ASCII
    `toUpperCase()`. Strings are sequences of characters; a character outside
    the Basic Multilingual Plane counts once here and twice in JavaScript. */
module Text {

  /** The characters JavaScript treats as white space: the WhiteSpace and
      LineTerminator productions, which `trim()` removes and `\s` matches. */
  predicate IsWhitespace(c: char) {
    || c == ' ' || c == '\t' || c == '\n' || c == '\r'
    || c == '\U{000B}' || c == '\U{000C}' || c == '\U{00A0}' || c == '\U{1680}'
    || ('\U{2000}' <= c <= '\U{200A}')
    || c == '\U{2028}' || c == '\U{2029}' || c == '\U{202F}' || c == '\U{205F}'
    || c == '\U{3000}' || c == '\U{FEFF}'
  }

  predicate AllWhitespace(s: string) {
    forall i :: 0 <= i < |s| ==> IsWhitespace(s[i])
  }

  /** `s` without its leading white space: a suffix of `s` that starts with a
      non-space character unless it is empty. */
  function TrimStart(s: string): (r: string)
    ensures |r| <= |s| && r == s[|s| - |r|..]
    ensures forall i :: 0 <= i < |s| - |r| ==> IsWhitespace(s[i])
    ensures |r| > 0 ==> !IsWhitespace(r[0])
  {
    if |s| > 0 && IsWhitespace(s[0]) then TrimStart(s[1..]) else s
  }

  /** `s` without its trailing white space: a prefix of `s` that ends with a
      non-space character unless it is empty. */
  function TrimEnd(s: string): (r: string)
    ensures |r| <= |s| && r == s[..|r|]
    ensures forall i :: |r| <= i < |s| ==> IsWhitespace(s[i])
    ensures |r| > 0 ==> !IsWhitespace(r[|r| - 1])
  {
    if |s| > 0 && IsWhitespace(s[|s| - 1]) then TrimEnd(s[..|s| - 1]) else s
  }

  /** JavaScript's `s.trim()`. */
  function Trim(s: string): string {
    TrimEnd(TrimStart(s))
  }

  /** A string trims to nothing exactly when every character is white space,
      which is what `!s.trim()` tests. */
  lemma TrimEmptyIff(s: string)
    ensures Trim(s) == "" <==> AllWhitespace(s)
  {
  }

  /** ASCII upper-casing of one character. */
  function ToUpperChar(c: char): char {
    if 'a' <= c <= 'z' then (c as int - 32) as char else c
  }

  /** `s.toUpperCase()` restricted to ASCII letters: same length, letter by letter. */
  function ToUpper(s: string): (r: string)
    ensures |r| == |s|
    ensures forall i :: 0 <= i < |s| ==> r[i] == ToUpperChar(s[i])
  {
    seq(|s|, i requires 0 <= i < |s| => ToUpperChar(s[i]))
  }

  /** Upper-casing twice is upper-casing once, and the result has no
      lower-case ASCII letter. */
  lemma ToUpperIdempotent(s: string)
    ensures ToUpper(ToUpper(s)) == ToUpper(s)
    ensures forall i :: 0 <= i < |s| ==> !('a' <= ToUpper(s)[i] <= 'z')
  {
  }

  /** `s` with every white-space character deleted (`s.replace(/\s/g, "")`):
      each other character is kept as often as it occurs, and a lone
      character survives exactly when it is not white space. */
  function RemoveWhitespace(s: string): (r: string)
    ensures |r| <= |s|
    ensures forall i :: 0 <= i < |r| ==> !IsWhitespace(r[i])
    ensures |s| == 1 ==> r == (if IsWhitespace(s[0]) then "" else s)
  {
    if |s| == 0 then ""
    else if IsWhitespace(s[0]) then RemoveWhitespace(s[1..])
    else [s[0]] + RemoveWhitespace(s[1..])
  }

  /** Removal keeps every other character as often as it occurs in `s`. */
  lemma {:induction false} RemoveWhitespaceCounts(s: string)
    ensures forall c :: multiset(RemoveWhitespace(s))[c] == if IsWhitespace(c) then 0 else multiset(s)[c]
  {
    if |s| > 0 {
      assert s == [s[0]] + s[1..];
      RemoveWhitespaceCounts(s[1..]);
    }
  }

  /** Removing white space from a string that has none changes nothing, so
      stripping twice is the same as stripping once. */
  lemma {:induction false} RemoveWhitespaceFixpoint(s: string)
    requires forall i :: 0 <= i < |s| ==> !IsWhitespace(s[i])
    ensures RemoveWhitespace(s) == s
  {
    if |s| > 0 {
      assert !IsWhitespace(s[0]);
      RemoveWhitespaceFixpoint(s[1..]);
    }
  }

  /** Removing white space works piece by piece. */
  lemma {:induction false} RemoveWhitespaceAppend(a: string, b: string)
    ensures RemoveWhitespace(a + b) == RemoveWhitespace(a) + RemoveWhitespace(b)
  {
    if |a| == 0 {
      assert a + b == b;
    } else {
      assert (a + b)[1..] == a[1..] + b;
      RemoveWhitespaceAppend(a[1..], b);
    }
  }

  /** `s.split(sep)` for a one-character separator: the pieces between
      separators, empty pieces included, never an empty list. */
  function Split(s: string, sep: char): (pieces: seq<string>)
    ensures |pieces| > 0
    ensures forall k :: 0 <= k < |pieces| ==> sep !in pieces[k]
    ensures pieces[0] <= s
    ensures |pieces[0]| < |s| ==> s[|pieces[0]|] == sep
    decreases |s|
  {
    if |s| == 0 then [""]
    else if s[0] == sep then [""] + Split(s[1..], sep)
    else
      var rest := Split(s[1..], sep);
      [[s[0]] + rest[0]] + rest[1..]
  }

  /** The pieces run together with `sep` between neighbours (`pieces.join(sep)`). */
  function Join(pieces: seq<string>, sep: char): string {
    if |pieces| == 0 then ""
    else if |pieces| == 1 then pieces[0]
    else pieces[0] + [sep] + Join(pieces[1..], sep)
  }

  /** Joining the pieces of a split gives back the original string. */
  lemma {:induction false} JoinSplit(s: string, sep: char)
    ensures Join(Split(s, sep), sep) == s
    decreases |s|
  {
    if |s| > 0 {
      var rest := Split(s[1..], sep);
      JoinSplit(s[1..], sep);
      if s[0] == sep {
        assert ([""] + rest)[1..] == rest;
        assert s == [sep] + s[1..];
      } else {
        var pieces := [[s[0]] + rest[0]] + rest[1..];
        assert pieces[1..] == rest[1..];
        assert s == [s[0]] + s[1..];
      }
    }
  }

  /** A piece free of the separator, followed by the separator and more text,
      splits into that piece followed by the pieces of the rest. */
  lemma {:induction false} SplitAfterPiece(p: string, t: string, sep: char)
    requires sep !in p
    ensures Split(p + [sep] + t, sep) == [p] + Split(t, sep)
    decreases |p|
  {
    var s := p + [sep] + t;
    if |p| == 0 {
      assert s[1..] == t;
    } else {
      assert s[1..] == p[1..] + [sep] + t;
      SplitAfterPiece(p[1..], t, sep);
      assert [p[0]] + p[1..] == p;
    }
  }

  /** A string without the separator splits into itself alone. */
  lemma {:induction false} SplitWithoutSeparator(p: string, sep: char)
    requires sep !in p
    ensures Split(p, sep) == [p]
    decreases |p|
  {
    if |p| > 0 {
      SplitWithoutSeparator(p[1..], sep);
      assert [p[0]] + p[1..] == p;
    }
  }

  /** Splitting a join of separator-free pieces gives back the pieces. */
  lemma {:induction false} SplitJoin(pieces: seq<string>, sep: char)
    requires |pieces| > 0
    requires forall k :: 0 <= k < |pieces| ==> sep !in pieces[k]
    ensures Split(Join(pieces, sep), sep) == pieces
  {
    if |pieces| == 1 {
      SplitWithoutSeparator(pieces[0], sep);
    } else {
      SplitJoin(pieces[1..], sep);
      SplitAfterPiece(pieces[0], Join(pieces[1..], sep), sep);
      assert [pieces[0]] + pieces[1..] == pieces;
    }
  }

  /** `pieces.map((n) => n[0]).join("")`: the first character of every piece;
      an empty piece yields `undefined`, which `join` prints as nothing. */
  function FirstChars(pieces: seq<string>): string {
    if |pieces| == 0 then ""
    else (if |pieces[0]| > 0 then [pieces[0][0]] else "") + FirstChars(pieces[1..])
  }

  /** The number of non-empty pieces. */
  function CountNonEmpty(pieces: seq<string>): nat {
    if |pieces| == 0 then 0
    else (if |pieces[0]| > 0 then 1 else 0) + CountNonEmpty(pieces[1..])
  }

  /** Every non-empty piece contributes exactly one character. */
  lemma {:induction false} FirstCharsLength(pieces: seq<string>)
    ensures |FirstChars(pieces)| == CountNonEmpty(pieces)
  {
    if |pieces| > 0 {
      FirstCharsLength(pieces[1..]);
    }
  }

  /** An independent reading of initials: the characters of `s` that are not
      the separator and stand at the start of `s` or right after a separator.
      `atStart` says whether the previous character was a separator (or there
      was none). */
  function WordStartsFrom(s: string, sep: char, atStart: bool): string
    decreases |s|
  {
    if |s| == 0 then ""
    else (if atStart && s[0] != sep then [s[0]] else "") + WordStartsFrom(s[1..], sep, s[0] == sep)
  }

  function WordStarts(s: string, sep: char): string {
    WordStartsFrom(s, sep, true)
  }

  /** The first characters of the split pieces are exactly the word starts;
      the pieces after the first give the word starts of a string whose first
      character does not follow a separator. */
  lemma {:induction false} FirstCharsOfSplit(s: string, sep: char)
    ensures FirstChars(Split(s, sep)) == WordStartsFrom(s, sep, true)
    ensures FirstChars(Split(s, sep)[1..]) == WordStartsFrom(s, sep, false)
    decreases |s|
  {
    if |s| > 0 {
      FirstCharsOfSplit(s[1..], sep);
      var rest := Split(s[1..], sep);
      if s[0] == sep {
        assert ([""] + rest)[1..] == rest;
      } else {
        var pieces := [[s[0]] + rest[0]] + rest[1..];
        assert pieces[1..] == rest[1..];
      }
    }
  }

  /** There are no word starts exactly when the string is all separators. */
  lemma {:induction false} WordStartsEmptyIff(s: string, sep: char)
    ensures WordStarts(s, sep) == "" <==> forall i :: 0 <= i < |s| ==> s[i] == sep
    decreases |s|
  {
    if |s| > 0 {
      WordStartsEmptyIff(s[1..], sep);
      if s[0] == sep {
        assert forall i :: 1 <= i < |s| ==> s[i] == s[1..][i - 1];
      }
    }
  }

  /** JavaScript's `s.includes(sub)`. */
  function Contains(s: string, sub: string): bool
    decreases |s|
  {
    if sub <= s then true
    else if |s| == 0 then false
    else Contains(s[1..], sub)
  }

  /** `Contains` finds `sub` exactly when it occurs at some position. */
  lemma {:induction false} ContainsIff(s: string, sub: string)
    ensures Contains(s, sub) <==> exists i :: 0 <= i <= |s| - |sub| && sub <= s[i..]
    decreases |s|
  {
    if sub <= s {
      assert s[0..] == s;
    } else if |s| > 0 {
      ContainsIff(s[1..], sub);
      if Contains(s[1..], sub) {
        var i :| 0 <= i <= |s[1..]| - |sub| && sub <= s[1..][i..];
        assert s[1..][i..] == s[i + 1..];
      } else {
        forall i | 1 <= i <= |s| - |sub|
          ensures !(sub <= s[i..])
        {
          assert s[1..][i - 1..] == s[i..];
        }
      }
    }
  }
}
