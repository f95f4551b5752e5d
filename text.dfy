/** Text primitives the application relies on from Python: `str.strip()`,
    `str.isdigit()`, `int()` on a string and `str()` of a non-negative int. */
module Text {
  import opened Wrappers

  /** Python truthiness of a request value: present and not empty. */
  predicate Given(field: Option<string>) {
    field.Some? && field.value != ""
  }

  /** The characters Python's `str.isspace()` accepts, which is what
      `str.strip()` removes from both ends. */
  predicate IsSpace(c: char) {
    c == ' ' || ('\t' <= c <= '\r') || ('\U{1C}' <= c <= '\U{1F}')
    || c == '\U{85}' || c == '\U{A0}' || c == '\U{1680}'
    || ('\U{2000}' <= c <= '\U{200A}') || c == '\U{2028}' || c == '\U{2029}'
    || c == '\U{202F}' || c == '\U{205F}' || c == '\U{3000}'
  }

  /** The whitespace `int()` ignores around its digits: the same set
      without the four separator controls U+001C..U+001F. */
  predicate IsIntSpace(c: char) {
    IsSpace(c) && !('\U{1C}' <= c <= '\U{1F}')
  }

  predicate All(s: string, space: char -> bool) {
    forall i :: 0 <= i < |s| ==> space(s[i])
  }

  /** Removes the characters `space` selects from both ends. */
  function Trim(s: string, space: char -> bool): (r: string)
    ensures |r| <= |s|
  {
    if s != [] && space(s[0]) then Trim(s[1..], space)
    else if s != [] && space(s[|s| - 1]) then Trim(s[..|s| - 1], space)
    else s
  }

  /** Python's `s.strip()`. */
  function Strip(s: string): string {
    Trim(s, IsSpace)
  }

  /** What `int()` strips before reading digits. */
  function IntStrip(s: string): string {
    Trim(s, IsIntSpace)
  }

  /** Trimming leaves no trimmed character at either end. */
  lemma {:induction false} TrimEnds(s: string, space: char -> bool)
    ensures var r := Trim(s, space); r == [] || (!space(r[0]) && !space(r[|r| - 1]))
  {
    if s != [] && space(s[0]) {
      TrimEnds(s[1..], space);
    } else if s != [] && space(s[|s| - 1]) {
      TrimEnds(s[..|s| - 1], space);
    }
  }

  /** `r` is the piece of `s` starting at `i`, with only trimmed
      characters around it. */
  predicate InnerSlice(s: string, i: nat, r: string, space: char -> bool) {
    i + |r| <= |s| && r == s[i..i + |r|] && All(s[..i], space) && All(s[i + |r|..], space)
  }

  lemma GrowFront(s: string, i: nat, r: string, space: char -> bool)
    requires s != [] && space(s[0]) && InnerSlice(s[1..], i, r, space)
    ensures InnerSlice(s, i + 1, r, space)
  {
    var t := s[1..];
    assert s[..i + 1] == [s[0]] + t[..i];
    assert s[i + 1 + |r|..] == t[i + |r|..];
  }

  lemma GrowBack(s: string, i: nat, r: string, space: char -> bool)
    requires s != [] && space(s[|s| - 1]) && InnerSlice(s[..|s| - 1], i, r, space)
    ensures InnerSlice(s, i, r, space)
  {
    var t := s[..|s| - 1];
    assert s[..i] == t[..i];
    assert s[i + |r|..] == t[i + |r|..] + [s[|s| - 1]];
  }

  /** Where the piece kept by `Trim(s, space)` starts in `s`. */
  function TrimStart(s: string, space: char -> bool): nat {
    if s != [] && space(s[0]) then 1 + TrimStart(s[1..], space)
    else if s != [] && space(s[|s| - 1]) then TrimStart(s[..|s| - 1], space)
    else 0
  }

  /** Trimming keeps one contiguous piece of the input and removes only
      trimmed characters around it. */
  lemma {:induction false} TrimIsInnerSlice(s: string, space: char -> bool)
    ensures InnerSlice(s, TrimStart(s, space), Trim(s, space), space)
  {
    if s != [] && space(s[0]) {
      TrimIsInnerSlice(s[1..], space);
      GrowFront(s, TrimStart(s[1..], space), Trim(s, space), space);
    } else if s != [] && space(s[|s| - 1]) {
      TrimIsInnerSlice(s[..|s| - 1], space);
      GrowBack(s, TrimStart(s, space), Trim(s, space), space);
    } else {
      assert s[..0] == [] && s[|s|..] == [];
    }
  }

  /** Trimming twice is trimming once. */
  lemma TrimIdempotent(s: string, space: char -> bool)
    ensures Trim(Trim(s, space), space) == Trim(s, space)
  {
    TrimEnds(s, space);
  }

  predicate IsDigit(c: char) {
    '0' <= c <= '9'
  }

  /** Python's `s.isdigit()` restricted to ASCII digits: the empty string
      is not a digit string. */
  predicate IsDigitString(s: string) {
    s != [] && forall i :: 0 <= i < |s| ==> IsDigit(s[i])
  }

  /** The value of a string of decimal digits; leading zeros are allowed,
      as in Python's `int("007") == 7`. */
  function DigitsValue(s: string): nat
    requires forall i :: 0 <= i < |s| ==> IsDigit(s[i])
  {
    if s == [] then 0
    else
      assert IsDigit(s[|s| - 1]);
      10 * DigitsValue(s[..|s| - 1]) + (s[|s| - 1] as int - '0' as int)
  }

  function DigitChar(d: nat): char
    requires d < 10
  {
    ('0' as int + d) as char
  }

  /** Python's `str(n)` for a non-negative integer. */
  function DecimalText(n: nat): (s: string)
    ensures IsDigitString(s)
  {
    if n < 10 then [DigitChar(n)] else DecimalText(n / 10) + [DigitChar(n % 10)]
  }

  /** Reading back the decimal text of `n` gives `n`. */
  lemma {:induction false} DecimalRoundTrip(n: nat)
    ensures DigitsValue(DecimalText(n)) == n
  {
    if n >= 10 {
      var s := DecimalText(n);
      assert s[..|s| - 1] == DecimalText(n / 10);
      DecimalRoundTrip(n / 10);
    }
  }

  /** Python's `int(s)` in base 10: surrounding whitespace is ignored, an
      optional sign may precede the digits, and anything else fails. */
  function ParseInt(s: string): Option<int> {
    var t := IntStrip(s);
    if t != [] && (t[0] == '+' || t[0] == '-') then
      if IsDigitString(t[1..]) then
        var magnitude: int := DigitsValue(t[1..]);
        Some(if t[0] == '-' then -magnitude else magnitude)
      else None
    else if IsDigitString(t) then Some(DigitsValue(t))
    else None
  }

  /** Text that begins and ends with a digit is left alone by `int()`'s
      stripping. */
  lemma IntStripKeepsDigitEnds(s: string)
    requires s != [] && IsDigit(s[|s| - 1]) && !IsIntSpace(s[0])
    ensures IntStrip(s) == s
  {
  }

  /** An id written with `str(n)` is read back as `n` by `int()`. */
  lemma ParseIntDecimal(n: nat)
    ensures ParseInt(DecimalText(n)) == Some(n)
  {
    var s := DecimalText(n);
    assert IsDigit(s[0]) && IsDigit(s[|s| - 1]);
    IntStripKeepsDigitEnds(s);
    assert s[0] != '+' && s[0] != '-';
    DecimalRoundTrip(n);
  }

  /** `int()` accepts a sign in front of any digit string. */
  lemma ParseIntSigned(n: nat)
    ensures ParseInt("-" + DecimalText(n)) == Some(-(n as int))
    ensures ParseInt("+" + DecimalText(n)) == Some(n)
  {
    var d := DecimalText(n);
    DecimalRoundTrip(n);
    var minus, plus := "-" + d, "+" + d;
    assert minus[|minus| - 1] == d[|d| - 1] && plus[|plus| - 1] == d[|d| - 1];
    IntStripKeepsDigitEnds(minus);
    IntStripKeepsDigitEnds(plus);
    assert minus[1..] == d && plus[1..] == d;
  }

  /** `int()` fails when, after stripping, some character other than a
      leading sign is not a digit. */
  lemma ParseIntRejects(s: string, i: nat)
    requires var t := IntStrip(s);
      i < |t| && !IsDigit(t[i]) && (i > 0 || (t[0] != '+' && t[0] != '-'))
    ensures ParseInt(s) == None
  {
    var t := IntStrip(s);
    if i > 0 && t[0] in {'+', '-'} {
      assert t[1..][i - 1] == t[i];
    }
  }

  /** `int()` fails on text that is empty once stripped. */
  lemma ParseIntRejectsBlank(s: string)
    requires All(s, IsIntSpace)
    ensures ParseInt(s) == None
  {
    IntStripAllSpace(s);
  }

  lemma {:induction false} IntStripAllSpace(s: string)
    requires All(s, IsIntSpace)
    ensures IntStrip(s) == []
  {
    if s != [] {
      IntStripAllSpace(s[1..]);
    }
  }
}
