/** The few Python string and number conversions the controller relies on:
    `str.lower`, `str.strip`, `str.split(":")`, `int(text)`, `int(x)` on a
    float, `round(x)` and the `" on" in reason` substring test. */
module Text {
  import opened Common

  /** `str.lower` restricted to ASCII letters; the controller only compares the
      lowered text with ASCII words. */
  function LowerChar(c: char): char {
    if 'A' <= c <= 'Z' then (c as int + 32) as char else c
  }

  predicate IsUpper(c: char) {
    'A' <= c <= 'Z'
  }

  function Lower(s: string): (r: string)
    ensures |r| == |s|
  {
    seq(|s|, i requires 0 <= i < |s| => LowerChar(s[i]))
  }

  /** Every upper-case letter becomes the same letter in lower case, every
      other character is kept, so no upper-case letter is left and text without
      one comes back unchanged. */
  lemma LowerMeaning(s: string)
    ensures forall i :: 0 <= i < |s| && IsUpper(s[i]) ==>
              'a' <= Lower(s)[i] <= 'z' && Lower(s)[i] as int - 'a' as int == s[i] as int - 'A' as int
    ensures forall i :: 0 <= i < |s| && !IsUpper(s[i]) ==> Lower(s)[i] == s[i]
    ensures forall i :: 0 <= i < |s| ==> !IsUpper(Lower(s)[i])
    ensures (forall i :: 0 <= i < |s| ==> !IsUpper(s[i])) ==> Lower(s) == s
  {
  }

  /** Lower-casing twice is lower-casing once. */
  lemma LowerIdempotent(s: string)
    ensures Lower(Lower(s)) == Lower(s)
  {
    LowerMeaning(s);
    LowerMeaning(Lower(s));
  }

  /** The characters `str.strip()` and `int()` treat as white space. */
  predicate IsSpace(c: char) {
    || c in {' ', '\t', '\n', '\r', '\U{0B}', '\U{0C}', '\U{85}', '\U{A0}', '\U{1680}',
             '\U{2028}', '\U{2029}', '\U{202F}', '\U{205F}', '\U{3000}'}
    || '\U{1C}' <= c <= '\U{1F}'
    || '\U{2000}' <= c <= '\U{200A}'
  }

  function StripLeft(s: string): string {
    if s != [] && IsSpace(s[0]) then StripLeft(s[1..]) else s
  }

  function StripRight(s: string): string {
    if s != [] && IsSpace(s[|s| - 1]) then StripRight(s[..|s| - 1]) else s
  }

  /** `str.strip()`: leading and trailing white space removed. */
  function Strip(s: string): string {
    StripLeft(StripRight(s))
  }

  /** `lstrip` keeps a suffix that does not start with white space. */
  lemma {:induction false} StripLeftShape(s: string)
    ensures var r := StripLeft(s); |r| <= |s| && r == s[|s| - |r|..] && (r == [] || !IsSpace(r[0]))
  {
    if s != [] && IsSpace(s[0]) {
      StripLeftShape(s[1..]);
    }
  }

  /** `rstrip` keeps a prefix that does not end with white space. */
  lemma {:induction false} StripRightShape(s: string)
    ensures var r := StripRight(s); |r| <= |s| && r == s[..|r|] && (r == [] || !IsSpace(r[|r| - 1]))
  {
    if s != [] && IsSpace(s[|s| - 1]) {
      StripRightShape(s[..|s| - 1]);
    }
  }

  /** The stripped text neither starts nor ends with white space. */
  lemma StripShape(s: string)
    ensures var r := Strip(s); r == [] || (!IsSpace(r[0]) && !IsSpace(r[|r| - 1]))
  {
    var t := StripRight(s);
    var r := StripLeft(t);
    StripRightShape(s);
    StripLeftShape(t);
    if r != [] {
      assert r[|r| - 1] == t[|t| - 1];
    }
  }

  /** Text that neither starts nor ends with white space is left unchanged. */
  lemma StripUnpadded(s: string)
    requires s != [] && !IsSpace(s[0]) && !IsSpace(s[|s| - 1])
    ensures Strip(s) == s
  {
  }

  predicate StartsWith(s: string, prefix: string) {
    |prefix| <= |s| && s[..|prefix|] == prefix
  }

  /** Python's `needle in hay` on strings. */
  predicate Contains(hay: string, needle: string) {
    StartsWith(hay, needle) || (hay != [] && Contains(hay[1..], needle))
  }

  /** `text.split(":")`: the fields between colons, always at least one. */
  function SplitColon(s: string): (r: seq<string>)
    ensures |r| >= 1
  {
    if s == [] then [""]
    else
      var rest := SplitColon(s[1..]);
      if s[0] == ':' then [""] + rest else [[s[0]] + rest[0]] + rest[1..]
  }

  lemma {:induction false} SplitWithoutColon(s: string)
    requires ':' !in s
    ensures SplitColon(s) == [s]
  {
    if s != [] {
      SplitWithoutColon(s[1..]);
      assert [s[0]] + s[1..] == s;
    }
  }

  /** Two colon-free fields joined by one colon split back into the two fields. */
  lemma {:induction false} SplitTwoFields(a: string, b: string)
    requires ':' !in a && ':' !in b
    ensures SplitColon(a + ":" + b) == [a, b]
  {
    if a == [] {
      assert a + ":" + b == [':'] + b;
      assert (a + ":" + b)[1..] == b;
      SplitWithoutColon(b);
    } else {
      assert (a + ":" + b)[1..] == a[1..] + ":" + b;
      SplitTwoFields(a[1..], b);
      assert [a[0]] + a[1..] == a;
    }
  }

  predicate IsDigit(c: char) {
    '0' <= c <= '9'
  }

  /** The digits of a Python integer literal as `int()` accepts them: digits, with
      single underscores allowed between two digits. */
  predicate DigitRun(t: string) {
    && t != [] && IsDigit(t[|t| - 1])
    && (|t| == 1 || DigitRun(t[..|t| - 1]) || (|t| >= 3 && t[|t| - 2] == '_' && DigitRun(t[..|t| - 2])))
  }

  /** The value of a run of decimal digits, underscores ignored. */
  function DigitsValue(t: string): (v: nat) {
    if t == [] then 0
    else if t[|t| - 1] == '_' then DigitsValue(t[..|t| - 1])
    else DigitsValue(t[..|t| - 1]) * 10 + (if IsDigit(t[|t| - 1]) then t[|t| - 1] as int - '0' as int else 0)
  }

  /** `int(text)` on a string: surrounding white space, an optional sign and a run
      of decimal digits; anything else raises, which is `None` here. */
  function PyInt(s: string): (r: Option<int>)
    ensures r.Some? ==> Strip(s) != []
  {
    var t := Strip(s);
    if t != [] && (t[0] == '+' || t[0] == '-') then
      if DigitRun(t[1..]) then Some(if t[0] == '-' then -(DigitsValue(t[1..]) as int) else DigitsValue(t[1..])) else None
    else if DigitRun(t) then Some(DigitsValue(t))
    else None
  }

  function DigitChar(d: nat): char
    requires d < 10
  {
    ('0' as int + d) as char
  }

  /** The zero-padded two-digit text of a number below 100, as in "07". */
  function TwoDigits(n: nat): (r: string)
    requires n < 100
    ensures |r| == 2 && IsDigit(r[0]) && IsDigit(r[1])
  {
    [DigitChar(n / 10), DigitChar(n % 10)]
  }

  /** `int()` reads a two-digit field back as the number it was written from. */
  lemma TwoDigitsRoundTrip(n: nat)
    requires n < 100
    ensures PyInt(TwoDigits(n)) == Some(n)
  {
    var t := TwoDigits(n);
    StripUnpadded(t);
    assert t[0] != '+' && t[0] != '-';
    assert DigitRun(t[..1]);
    assert t[..1][..0] == [];
    assert DigitsValue(t[..1]) == n / 10;
    assert t[..2] == t;
  }

  /** `(s or "").lower() == "on"`: the state text of a light that is on. */
  predicate IsOnText(s: Option<string>) {
    Lower(s.GetOr("")) == "on"
  }
}

/** Integer conversions of Python floats, on exact reals. */
module Numeric {

  /** `int(x)`: truncation toward zero. */
  function Trunc(x: real): (r: int)
    ensures 0.0 <= x ==> 0 <= r && r as real <= x < r as real + 1.0
    ensures x < 0.0 ==> r <= 0 && r as real - 1.0 < x <= r as real
  {
    if x >= 0.0 then x.Floor else -((-x).Floor)
  }

  /** `round(x)`: the nearest integer, ties to the even neighbour. */
  function RoundHalfEven(x: real): (r: int)
    ensures x - 0.5 <= r as real <= x + 0.5
    ensures (r as real == x - 0.5 || r as real == x + 0.5) ==> r % 2 == 0
  {
    var f := x.Floor;
    var d := x - f as real;
    if d < 0.5 then f
    else if d > 0.5 then f + 1
    else if f % 2 == 0 then f
    else f + 1
  }

  /** The two properties above single out one integer: no other integer is as
      close, or as close and even. */
  lemma {:induction false} RoundHalfEvenUnique(x: real, k: int)
    requires x - 0.5 <= k as real <= x + 0.5
    requires (k as real == x - 0.5 || k as real == x + 0.5) ==> k % 2 == 0
    ensures k == RoundHalfEven(x)
  {
  }

  /** An integer is its own rounding. */
  lemma RoundOfInteger(n: int)
    ensures RoundHalfEven(n as real) == n
  {
  }

  /** `max(lo, min(hi, v))`. */
  function Clamp(lo: int, hi: int, v: int): (r: int)
    requires lo <= hi
    ensures lo <= r <= hi
    ensures lo <= v <= hi ==> r == v
  {
    if v < lo then lo else if v > hi then hi else v
  }

  function Abs(x: int): nat {
    if x < 0 then -x else x
  }

  function MinReal(a: real, b: real): real {
    if a <= b then a else b
  }

  function MaxReal(a: real, b: real): real {
    if a >= b then a else b
  }
}
