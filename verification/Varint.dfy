/** Base 128 varints as values: the encoding of a number, its length, and decoding. */
module Varint {
  import opened Types

  const TWO_63 := 0x8000_0000_0000_0000
  const TWO_64 := 0x1_0000_0000_0000_0000

  /** A varint of a 64-bit number has at most this many bytes. */
  const MAX_BYTES := 10

  /** Seven bits per byte, least significant first; the top bit marks that more follow. */
  function Encode(x: nat): (bytes: seq<byte>)
    ensures |bytes| > 0
  {
    if x < 128 then [x] else [x % 128 + 128] + Encode(x / 128)
  }

  function Size(x: nat): nat {
    if x < 128 then 1 else 1 + Size(x / 128)
  }

  lemma {:induction false} SizeIsLength(x: nat)
    ensures Size(x) == |Encode(x)|
  {
    if x >= 128 {
      SizeIsLength(x / 128);
    }
  }

  // ---------------------------------------------------------------- decoding

  /** The place of the first byte without the top bit, or the length if there is none. */
  function Terminator(b: seq<byte>): (t: nat)
    ensures t <= |b| && (t < |b| ==> b[t] < 128) && forall k | 0 <= k < t :: b[k] >= 128
  {
    if b == [] || b[0] < 128 then 0 else 1 + Terminator(b[1..])
  }

  /** The number whose base 128 digits are the low seven bits of the bytes. */
  function Digits(b: seq<byte>): nat {
    if b == [] then 0 else b[0] % 128 + 128 * Digits(b[1..])
  }

  datatype Decoded = Number(x: nat, n: nat) | Short | TooLong

  /** What a varint at the start of b means: its digits modulo 2^64 and its length. It is cut
      short if the bytes end first, and too long if ten bytes do not end it. */
  function Decode(b: seq<byte>): Decoded {
    var t := Terminator(b);
    if t >= MAX_BYTES then TooLong
    else if t == |b| then Short
    else Number(Digits(b[..t + 1]) % TWO_64, t + 1)
  }

  function Pow128(n: nat): (p: nat)
    ensures p > 0
  {
    if n == 0 then 1 else 128 * Pow128(n - 1)
  }

  /** The digit d at the place worth p. */
  function Scaled(d: nat, p: nat): nat {
    d * p
  }

  lemma {:induction false} DigitsSnoc(b: seq<byte>, c: byte)
    ensures Digits(b + [c]) == Digits(b) + Scaled(c % 128, Pow128(|b|))
  {
    if b == [] {
      assert ([] + [c])[1..] == [];
    } else {
      DigitsSnoc(b[1..], c);
      assert (b + [c])[1..] == b[1..] + [c];
      var p := Pow128(|b| - 1);
      assert 128 * (c % 128 * p) == c % 128 * (128 * p);
    }
  }

  lemma {:induction false} DigitsBound(b: seq<byte>)
    ensures Digits(b) < Pow128(|b|)
  {
    if b != [] {
      DigitsBound(b[1..]);
    }
  }

  lemma {:induction false} Pow128Monotone(m: nat, n: nat)
    requires m <= n
    ensures Pow128(m) <= Pow128(n)
    decreases n
  {
    if m < n {
      Pow128Monotone(m, n - 1);
    }
  }

  lemma Pow128Nine()
    ensures Pow128(9) == TWO_63
  {
    assert Pow128(3) == 0x20_0000;
    assert Pow128(6) == 0x400_0000_0000;
  }

  lemma DigitsFit(b: seq<byte>)
    requires |b| < MAX_BYTES
    ensures Digits(b) < TWO_63 && Digits(b) < Pow128(|b|)
    ensures if |b| < 9 then 128 * Pow128(|b|) <= TWO_63 else Pow128(|b|) == TWO_63
  {
    DigitsBound(b);
    Pow128Nine();
    Pow128Monotone(|b|, 9);
    if |b| < 9 {
      Pow128Monotone(|b| + 1, 9);
    }
  }

  /** Adding one more digit in 64-bit arithmetic. */
  lemma OneMoreDigit(b: seq<byte>, c: byte)
    requires |b| < MAX_BYTES
    ensures Digits(b) + Scaled(c % 128, Pow128(|b|)) % TWO_64 == Digits(b + [c]) % TWO_64
  {
    hide Digits, Pow128, Scaled;
    DigitsFit(b);
    if |b| < 9 {
      LowDigit(Digits(b), c % 128, Pow128(|b|));
    } else {
      TopDigit(Digits(b), c % 128);
    }
    DigitsSnoc(b, c);
  }

  lemma LowDigit(x: nat, d: nat, p: nat)
    requires x < p && d < 128 && 128 * p <= TWO_63
    ensures x + Scaled(d, p) % TWO_64 == (x + Scaled(d, p)) % TWO_64
  {
    assert d * p <= 127 * p;
  }

  /** Of a tenth digit only the lowest bit stays. */
  lemma TopDigit(x: nat, d: nat)
    requires x < TWO_63
    ensures x + Scaled(d, TWO_63) % TWO_64 == (x + Scaled(d, TWO_63)) % TWO_64
  {
    assert d * TWO_63 == d / 2 * TWO_64 + d % 2 * TWO_63;
  }

  // ---------------------------------------------------------------- round trip

  lemma {:induction false} EncodeDigits(x: nat, rest: seq<byte>)
    ensures Terminator(Encode(x) + rest) == |Encode(x)| - 1 && Digits(Encode(x)) == x
  {
    if x >= 128 {
      EncodeDigits(x / 128, rest);
      assert (Encode(x) + rest)[1..] == Encode(x / 128) + rest;
      assert Encode(x)[1..] == Encode(x / 128);
    } else {
      assert Encode(x)[1..] == [];
    }
  }

  lemma {:induction false} EncodeFits(x: nat, n: nat)
    requires n >= 1 && x < Pow128(n)
    ensures |Encode(x)| <= n
  {
    if x >= 128 {
      EncodeFits(x / 128, n - 1);
    }
  }

  lemma MaxBytes(x: nat)
    requires x < TWO_64
    ensures |Encode(x)| <= MAX_BYTES
  {
    Pow128Nine();
    EncodeFits(x, MAX_BYTES);
  }

  /** Decoding gives back every 64-bit number and takes exactly the bytes of its encoding,
      whatever follows them. */
  lemma RoundTrip(x: nat, rest: seq<byte>)
    requires x < TWO_64
    ensures Decode(Encode(x) + rest) == Number(x, Size(x))
  {
    hide Encode, Digits, Terminator, Size;
    EncodeDigits(x, rest);
    SizeIsLength(x);
    MaxBytes(x);
    assert (Encode(x) + rest)[..|Encode(x)|] == Encode(x);
  }

  /** No encoding is the beginning of another: numbers are told apart in a stream. */
  lemma PrefixFree(x: nat, y: nat)
    requires x < TWO_64 && y < TWO_64 && Encode(x) <= Encode(y)
    ensures x == y
  {
    RoundTrip(x, Encode(y)[|Encode(x)|..]);
    RoundTrip(y, []);
    assert Encode(y) + [] == Encode(x) + Encode(y)[|Encode(x)|..];
  }
}
