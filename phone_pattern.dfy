/**
  The phone-number classifier `phone_pattern = re.compile(r"^[\d\+\-\(\) ]+$")`
  and its use through `phone_pattern.match(text)`.

  Two features of Python's `re` module on `str` patterns decide what it accepts:
  - `\d` matches every Unicode decimal digit (general category Nd), not only
    ASCII `0`-`9`; `IsDecimalDigit` lists the Nd blocks of Unicode 15.0;
  - `$` without MULTILINE matches at the end of the text and also just before
    a single newline that ends the text, so `"555\n"` is accepted.
*/
module PhonePattern {

  /** Unicode general category Nd (Unicode 15.0): 68 runs of ten consecutive code points. */
  predicate IsDecimalDigit(c: char) {
    var n := c as int;
    (0x0030 <= n <= 0x0039) || (0x0660 <= n <= 0x0669) || (0x06F0 <= n <= 0x06F9) ||
    (0x07C0 <= n <= 0x07C9) || (0x0966 <= n <= 0x096F) || (0x09E6 <= n <= 0x09EF) ||
    (0x0A66 <= n <= 0x0A6F) || (0x0AE6 <= n <= 0x0AEF) || (0x0B66 <= n <= 0x0B6F) ||
    (0x0BE6 <= n <= 0x0BEF) || (0x0C66 <= n <= 0x0C6F) || (0x0CE6 <= n <= 0x0CEF) ||
    (0x0D66 <= n <= 0x0D6F) || (0x0DE6 <= n <= 0x0DEF) || (0x0E50 <= n <= 0x0E59) ||
    (0x0ED0 <= n <= 0x0ED9) || (0x0F20 <= n <= 0x0F29) || (0x1040 <= n <= 0x1049) ||
    (0x1090 <= n <= 0x1099) || (0x17E0 <= n <= 0x17E9) || (0x1810 <= n <= 0x1819) ||
    (0x1946 <= n <= 0x194F) || (0x19D0 <= n <= 0x19D9) || (0x1A80 <= n <= 0x1A89) ||
    (0x1A90 <= n <= 0x1A99) || (0x1B50 <= n <= 0x1B59) || (0x1BB0 <= n <= 0x1BB9) ||
    (0x1C40 <= n <= 0x1C49) || (0x1C50 <= n <= 0x1C59) || (0xA620 <= n <= 0xA629) ||
    (0xA8D0 <= n <= 0xA8D9) || (0xA900 <= n <= 0xA909) || (0xA9D0 <= n <= 0xA9D9) ||
    (0xA9F0 <= n <= 0xA9F9) || (0xAA50 <= n <= 0xAA59) || (0xABF0 <= n <= 0xABF9) ||
    (0xFF10 <= n <= 0xFF19) || (0x104A0 <= n <= 0x104A9) || (0x10D30 <= n <= 0x10D39) ||
    (0x11066 <= n <= 0x1106F) || (0x110F0 <= n <= 0x110F9) || (0x11136 <= n <= 0x1113F) ||
    (0x111D0 <= n <= 0x111D9) || (0x112F0 <= n <= 0x112F9) || (0x11450 <= n <= 0x11459) ||
    (0x114D0 <= n <= 0x114D9) || (0x11650 <= n <= 0x11659) || (0x116C0 <= n <= 0x116C9) ||
    (0x11730 <= n <= 0x11739) || (0x118E0 <= n <= 0x118E9) || (0x11950 <= n <= 0x11959) ||
    (0x11C50 <= n <= 0x11C59) || (0x11D50 <= n <= 0x11D59) || (0x11DA0 <= n <= 0x11DA9) ||
    (0x11F50 <= n <= 0x11F59) || (0x16A60 <= n <= 0x16A69) || (0x16AC0 <= n <= 0x16AC9) ||
    (0x16B50 <= n <= 0x16B59) || (0x1D7CE <= n <= 0x1D7FF) || (0x1E140 <= n <= 0x1E149) ||
    (0x1E2F0 <= n <= 0x1E2F9) || (0x1E4F0 <= n <= 0x1E4F9) || (0x1E950 <= n <= 0x1E959) ||
    (0x1FBF0 <= n <= 0x1FBF9)
  }

  /** The character class `[\d\+\-\(\) ]`. */
  predicate IsPhoneChar(c: char) {
    IsDecimalDigit(c) || c == '+' || c == '-' || c == '(' || c == ')' || c == ' '
  }

  predicate AllPhoneChars(s: string) {
    forall k :: 0 <= k < |s| ==> IsPhoneChar(s[k])
  }

  /**
    What the pattern means, stated without the matching procedure: the text is
    one or more class characters, optionally followed by one final newline.
  */
  predicate LooksLikePhoneNumber(s: string) {
    || (s != [] && AllPhoneChars(s))
    || (|s| >= 2 && s[|s| - 1] == '\n' && AllPhoneChars(s[..|s| - 1]))
  }

  /**
    The greedy repetition `[...]+` started at position `i`: the index of the
    first character at or after `i` that lies outside the class.
  */
  function ClassRunEnd(s: string, i: nat): (j: nat)
    requires i <= |s|
    ensures i <= j <= |s|
    ensures forall k :: i <= k < j ==> IsPhoneChar(s[k])
    ensures j == |s| || !IsPhoneChar(s[j])
    decreases |s| - i
  {
    if i == |s| || !IsPhoneChar(s[i]) then i else ClassRunEnd(s, i + 1)
  }

  /** `$` without MULTILINE: the end of the text, or just before a newline that ends it. */
  predicate AtEnd(s: string, j: nat) {
    j == |s| || (j + 1 == |s| && s[j] == '\n')
  }

  /**
    `phone_pattern.match(s)` is truthy. `^` holds at position 0, the greedy run
    must be non-empty, and `$` must hold where it stops. Backtracking to a
    shorter run never helps: `$` could only hold before a final newline, and a
    newline is not a class character, so the run never extends past one.
  */
  function Matches(s: string): (b: bool)
    ensures b <==> LooksLikePhoneNumber(s)
  {
    var j := ClassRunEnd(s, 0);
    0 < j && AtEnd(s, j)
  }

  /** The empty text is rejected: `+` needs at least one character. */
  lemma EmptyRejected()
    ensures !Matches("")
  {
  }

  /** Any text holding an ASCII letter anywhere is rejected. */
  lemma LetterRejected(s: string, k: nat)
    requires k < |s|
    requires 'a' <= s[k] <= 'z' || 'A' <= s[k] <= 'Z'
    ensures !Matches(s)
  {
  }

  /** A valid number followed by exactly one newline is still accepted. */
  lemma TrailingNewlineAccepted(s: string)
    requires s != [] && AllPhoneChars(s)
    ensures Matches(s + "\n")
  {
  }

  /** Two trailing newlines are rejected. */
  lemma DoubleNewlineRejected(s: string)
    ensures !Matches(s + "\n\n")
  {
    var t := s + "\n\n";
    assert t[|t| - 1] == '\n';
    assert t[..|t| - 1][|t| - 2] == '\n';
  }

  /** Accepted texts are made of class characters, except for at most one final newline. */
  lemma AcceptedCharacters(s: string, k: nat)
    requires Matches(s)
    requires k < |s|
    ensures IsPhoneChar(s[k]) || (k == |s| - 1 && s[k] == '\n')
  {
  }

  /** A formatted international number is dialled as a number. */
  lemma FormattedNumberAccepted()
    ensures Matches("+1 555-0100")
  {
  }

  /** Digits of other scripts count as `\d`: Arabic-Indic five, five, five. */
  lemma ArabicIndicDigitsAccepted()
    ensures Matches("\U{0665}\U{0665}\U{0665}")
  {
  }

  /** A client name is not a number. */
  lemma ClientNameRejected()
    ensures !Matches("alice")
  {
  }
}
