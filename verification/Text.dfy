/** The library text functions that task ids and names rely on: fields separated by white
    space, splitting at a character, and decimal numbers. */
module Text {
  import opened Types

  const MAX_INT := 0x7FFF_FFFF_FFFF_FFFF
  const TWO_64 := 0x1_0000_0000_0000_0000

  /** White space as Unicode defines it. */
  predicate IsSpace(c: char) {
    var u := c as int;
    || 9 <= u <= 13 || u == 32 || u == 0x85 || u == 0xA0 || u == 0x1680 || 0x2000 <= u <= 0x200A
    || u == 0x2028 || u == 0x2029 || u == 0x202F || u == 0x205F || u == 0x3000
  }

  /** Not empty and without white space. */
  predicate Plain(s: string) {
    s != "" && forall k | 0 <= k < |s| :: !IsSpace(s[k])
  }

  function WordLength(s: string): (n: nat)
    ensures n <= |s| && (forall k | 0 <= k < n :: !IsSpace(s[k])) && (n < |s| ==> IsSpace(s[n]))
  {
    if s == "" || IsSpace(s[0]) then 0 else 1 + WordLength(s[1..])
  }

  /** The maximal pieces without white space. */
  function Fields(s: string): seq<string> {
    if s == "" then []
    else if IsSpace(s[0]) then Fields(s[1..])
    else
      var n := WordLength(s);
      assert n > 0;
      [s[..n]] + Fields(s[n..])
  }

  lemma {:induction false} FieldsArePlain(s: string)
    ensures forall k | 0 <= k < |Fields(s)| :: Plain(Fields(s)[k])
    decreases |s|
  {
    if s != "" {
      if IsSpace(s[0]) {
        FieldsArePlain(s[1..]);
      } else {
        FieldsArePlain(s[WordLength(s)..]);
      }
    }
  }

  lemma FirstField(w: string, rest: string)
    requires Plain(w) && (rest == "" || IsSpace(rest[0]))
    ensures Fields(w + rest) == [w] + Fields(rest)
  {
    var s := w + rest;
    assert s[0] == w[0] && !IsSpace(s[0]);
    WordLengthIs(s, |w|);
    assert s[..|w|] == w && s[|w|..] == rest;
  }

  lemma {:induction false} WordLengthIs(s: string, n: nat)
    requires n <= |s| && (forall k | 0 <= k < n :: !IsSpace(s[k])) && (n < |s| ==> IsSpace(s[n]))
    ensures WordLength(s) == n
  {
    if n > 0 {
      WordLengthIs(s[1..], n - 1);
    }
  }

  lemma SpaceThenField(w: string)
    ensures Fields(" " + w) == Fields(w)
  {
    assert (" " + w)[1..] == w;
  }

  // ---------------------------------------------------------------- decimal numbers

  function Digit(d: nat): char
    requires d < 10
  {
    (d + '0' as int) as char
  }

  predicate IsDigit(c: char) {
    '0' <= c <= '9'
  }

  function DigitValue(c: char): (d: nat)
    requires IsDigit(c)
    ensures d < 10
  {
    c as int - '0' as int
  }

  function Decimal(n: nat): (s: string)
    ensures s != "" && forall k | 0 <= k < |s| :: IsDigit(s[k])
  {
    if n < 10 then [Digit(n)] else Decimal(n / 10) + [Digit(n % 10)]
  }

  predicate AllDigits(s: string) {
    s != "" && forall k | 0 <= k < |s| :: IsDigit(s[k])
  }

  function DecimalValue(s: string): nat
    requires forall k | 0 <= k < |s| :: IsDigit(s[k])
  {
    if s == "" then 0 else 10 * DecimalValue(s[..|s| - 1]) + DigitValue(s[|s| - 1])
  }

  lemma {:induction false} DecimalRoundTrip(n: nat)
    ensures DecimalValue(Decimal(n)) == n
  {
    if n >= 10 {
      DecimalRoundTrip(n / 10);
      var s := Decimal(n);
      assert s[..|s| - 1] == Decimal(n / 10);
    } else {
      assert Decimal(n)[..0] == "";
    }
  }

  /** An unsigned number of 64 bits; anything else is an error. */
  function ParseUint(s: string): Option<nat> {
    if AllDigits(s) && DecimalValue(s) < TWO_64 then Some(DecimalValue(s)) else None
  }

  lemma ParseUintRoundTrip(n: nat)
    requires n < TWO_64
    ensures ParseUint(Decimal(n)) == Some(n) && Plain(Decimal(n))
  {
    DecimalRoundTrip(n);
  }

  function FormatInt(n: int): string {
    if n < 0 then "-" + Decimal(-n) else Decimal(n)
  }

  /** A signed number of 64 bits, with an optional sign. */
  function ParseInt(s: string): Option<int> {
    var negative := s != "" && s[0] == '-';
    var digits := if s != "" && (s[0] == '-' || s[0] == '+') then s[1..] else s;
    if !AllDigits(digits) then None
    else
      var v: int := DecimalValue(digits);
      if negative then (if v <= MAX_INT + 1 then Some(-v) else None)
      else if v <= MAX_INT then Some(v) else None
  }

  /** The pieces between occurrences of a character. */
  function Split(s: string, c: char): (parts: seq<string>)
    ensures |parts| >= 1
  {
    if s == "" then [""]
    else if s[0] == c then [""] + Split(s[1..], c)
    else
      var rest := Split(s[1..], c);
      [[s[0]] + rest[0]] + rest[1..]
  }

  lemma {:induction false} SplitNone(s: string, c: char)
    requires forall k | 0 <= k < |s| :: s[k] != c
    ensures Split(s, c) == [s]
  {
    if s != "" {
      SplitNone(s[1..], c);
      assert [s[0]] + s[1..] == s;
    }
  }

  lemma {:induction false} SplitOnce(a: string, c: char, b: string)
    requires forall k | 0 <= k < |a| :: a[k] != c
    ensures Split(a + [c] + b, c) == [a] + Split(b, c)
  {
    var s := a + [c] + b;
    if a == "" {
      assert s[1..] == b;
    } else {
      SplitOnce(a[1..], c, b);
      assert s[1..] == a[1..] + [c] + b;
      assert [a[0]] + a[1..] == a;
    }
  }
}
