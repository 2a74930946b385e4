/** The byte buffer of the wire format. It is a slice: an array that may be longer than what
    is in use, written in place while there is room and reallocated otherwise. */
module Wire {
  import opened Types
  import opened Varint

  // ---------------------------------------------------------------- varints

  method EncodeVarint(v: nat) returns (bytes: seq<byte>)
    requires v < TWO_64
    ensures bytes == Encode(v)
  {
    MaxBytes(v);
    var buf := new byte[MAX_BYTES];
    var n, x := 0, v;
    while x > 127
      invariant n < MAX_BYTES && |Encode(x)| <= MAX_BYTES - n
      invariant buf[..n] + Encode(x) == Encode(v)
    {
      buf[n] := 128 + x % 128;
      assert buf[..n + 1] == buf[..n] + [buf[n]];
      x := x / 128;
      n := n + 1;
    }
    buf[n] := x;
    n := n + 1;
    bytes := buf[0..n];
  }

  method SizeVarint(v: nat) returns (n: nat)
    ensures n == Size(v) == |Encode(v)|
  {
    SizeIsLength(v);
    var x: nat := v;
    n := 0;
    while true
      invariant Size(v) == n + Size(x)
      decreases x
    {
      n := n + 1;
      x := x / 128;
      if x == 0 {
        break;
      }
    }
  }

  /** One step of reading: the digit c is put above the n digits read so far. The new digit
      lies above all bits of x, so that or-ing it in is adding it. */
  function PutDigit(x: nat, n: nat, c: byte): nat {
    x + Scaled(c % 128, Pow128(n)) % TWO_64
  }

  /** All of the first n bytes have the top bit, and x holds their digits. */
  ghost predicate ReadSoFar(b: seq<byte>, n: nat, x: nat) {
    n <= |b| && n <= MAX_BYTES && (forall k | 0 <= k < n :: b[k] >= 128) && (n < MAX_BYTES ==> x == Digits(b[..n]))
  }

  lemma ReadOne(b: seq<byte>, n: nat, x: nat)
    requires ReadSoFar(b, n, x) && n < |b| && n < MAX_BYTES
    ensures if b[n] < 128 then Decode(b) == Number(PutDigit(x, n, b[n]), n + 1)
            else ReadSoFar(b, n + 1, PutDigit(x, n, b[n]))
  {
    hide Digits, Scaled, Pow128;
    OneMoreDigit(b[..n], b[n]);
    assert b[..n + 1] == b[..n] + [b[n]];
    if b[n] >= 128 && n + 1 < MAX_BYTES {
      DigitsFit(b[..n + 1]);
    }
  }

  lemma ReadEnds(b: seq<byte>, n: nat, x: nat)
    requires ReadSoFar(b, n, x)
    ensures n == MAX_BYTES ==> Decode(b) == TooLong
    ensures n == |b| < MAX_BYTES ==> Decode(b) == Short
  {
  }

  /** The number and the bytes taken, or zero twice. */
  method DecodeVarint(buf: seq<byte>) returns (x: nat, n: nat)
    ensures match Decode(buf)
            case Number(v, k) => x == v && n == k
            case _ => x == 0 && n == 0
  {
    hide Decode, PutDigit;
    x, n := 0, 0;
    var shift := 0;
    assert ReadSoFar(buf, n, x);
    while shift < 64
      invariant shift == 7 * n && ReadSoFar(buf, n, x)
    {
      ReadEnds(buf, n, x);
      if n >= |buf| {
        return 0, 0;
      }
      ReadOne(buf, n, x);
      var b := buf[n];
      x := PutDigit(x, n, b);
      n := n + 1;
      if b < 128 {
        return x, n;
      }
      shift := shift + 7;
    }
    ReadEnds(buf, n, x);
    return 0, 0;
  }

  // ---------------------------------------------------------------- the buffer

  datatype WireError = NoError | UnexpectedEOF | Overflow | BadLength

  /** What reading a length-delimited field at the start of b yields: the error, the bytes,
      and how far the reader moves. A length that is negative as an int is refused. */
  datatype Field = Field(err: WireError, bytes: seq<byte>, taken: nat)

  function ReadField(b: seq<byte>): Field {
    match Decode(b)
    case Short => Field(UnexpectedEOF, [], 0)
    case TooLong => Field(Overflow, [], 0)
    case Number(n, k) =>
      if n >= TWO_63 then Field(BadLength, [], k)
      else if k + n > |b| then Field(UnexpectedEOF, [], k)
      else Field(NoError, b[k..k + n], k + n)
  }

  /** A message behind its length is read back whole, and nothing beyond it is touched. */
  lemma FieldRoundTrip(msg: seq<byte>, rest: seq<byte>)
    requires |msg| < TWO_63
    ensures ReadField(Encode(|msg|) + msg + rest) == Field(NoError, msg, Size(|msg|) + |msg|)
  {
    SizeIsLength(|msg|);
    RoundTrip(|msg|, msg + rest);
    var b := Encode(|msg|) + msg + rest;
    assert b == Encode(|msg|) + (msg + rest);
    assert b[|Encode(|msg|)|..|Encode(|msg|)| + |msg|] == msg;
  }

  /** 64-bit signed reading of a number. */
  function ToInt(n: nat): int
    requires n < TWO_64
  {
    if n >= TWO_63 then n - TWO_64 else n
  }

  /** Signed 64-bit addition of values that may run over at the top. */
  function AddInt(a: int, b: int): int {
    if a + b >= TWO_63 then a + b - TWO_64 else a + b
  }

  lemma EncodeMore(bs: seq<byte>, x: nat)
    requires x >= 128
    ensures bs + [x % 128 + 128] + Encode(x / 128) == bs + Encode(x)
    ensures |Encode(x)| == 1 + |Encode(x / 128)| >= 2
  {
  }

  lemma EncodeLast(x: nat)
    requires x < 128
    ensures Encode(x) == [x]
  {
  }

  /** The array contents with bs written over them from place n on. */
  function Splice(was: seq<byte>, n: nat, bs: seq<byte>): seq<byte>
    requires n + |bs| <= |was|
  {
    was[..n] + bs + was[n + |bs|..]
  }

  lemma SpliceNone(was: seq<byte>, n: nat)
    requires n <= |was|
    ensures Splice(was, n, []) == was
  {
  }

  lemma SpliceOne(was: seq<byte>, n: nat, bs: seq<byte>, c: byte)
    requires n + |bs| + 1 <= |was|
    ensures |Splice(was, n, bs)| == |was|
    ensures Splice(was, n, bs)[n + |bs| := c] == Splice(was, n, bs + [c])
  {
  }

  class Buffer {
    var arr: array<byte>
    var len: nat
    var index: nat

    ghost predicate Valid()
      reads this
    {
      len <= arr.Length && index <= len && len < TWO_63
    }

    ghost function Contents(): seq<byte>
      requires Valid()
      reads this, arr
    {
      arr[..len]
    }

    constructor (capacity: nat)
      ensures Valid() && Contents() == [] && index == 0 && fresh(arr) && arr.Length == capacity
    {
      arr := new byte[capacity];
      len := 0;
      index := 0;
    }

    /** Where there is room the array is written in place and nothing else in it changes;
        otherwise the contents move to a new array. */
    method Append(b: byte)
      requires Valid() && len + 1 < TWO_63
      modifies this`arr, this`len, arr
      ensures Valid() && Contents() == old(Contents()) + [b] && index == old(index)
      ensures if old(len < arr.Length)
              then arr == old(arr) && arr[..] == old(arr[..])[old(len) := b]
              else fresh(arr)
    {
      if len < arr.Length {
        arr[len] := b;
      } else {
        var grown := new byte[2 * len + 1];
        forall k | 0 <= k < len {
          grown[k] := arr[k];
        }
        grown[len] := b;
        arr := grown;
      }
      len := len + 1;
    }

    method AppendAll(bs: seq<byte>)
      requires Valid() && len + |bs| < TWO_63
      modifies this`arr, this`len, arr
      ensures Valid() && Contents() == old(Contents()) + bs && index == old(index)
      ensures fresh(arr) || arr == old(arr)
      ensures old(len) + |bs| <= old(arr.Length) ==> arr == old(arr) && arr[..] == Splice(old(arr[..]), old(len), bs)
    {
      hide Splice;
      var i := 0;
      ghost var room, was := len + |bs| <= arr.Length, arr[..];
      SpliceNone(was, len);
      while i < |bs|
        invariant i <= |bs| && Valid() && len == old(len) + i && index == old(index)
        invariant Contents() == old(Contents()) + bs[..i]
        invariant fresh(arr) || arr == old(arr)
        invariant room ==> arr == old(arr) && arr[..] == Splice(was, old(len), bs[..i])
      {
        if room {
          SpliceOne(was, old(len), bs[..i], bs[i]);
        }
        Append(bs[i]);
        i := i + 1;
        assert bs[..i] == bs[..i - 1] + [bs[i - 1]];
      }
      assert bs[..|bs|] == bs;
    }

    method EncodeVarint(v: nat)
      requires Valid() && v < TWO_64 && len + |Encode(v)| < TWO_63
      modifies this`arr, this`len, arr
      ensures Valid() && Contents() == old(Contents()) + Encode(v) && index == old(index)
      ensures fresh(arr) || arr == old(arr)
      ensures old(len) + |Encode(v)| <= old(arr.Length) ==>
                arr == old(arr) && arr[..] == Splice(old(arr[..]), old(len), Encode(v))
    {
      hide Splice, Encode;
      var x := v;
      ghost var room, was := len + |Encode(v)| <= arr.Length, arr[..];
      SpliceNone(was, len);
      ghost var bs: seq<byte> := [];
      while x >= 128
        invariant Valid() && bs + Encode(x) == Encode(v) && len == old(len) + |bs| && index == old(index)
        invariant Contents() == old(Contents()) + bs
        invariant fresh(arr) || arr == old(arr)
        invariant room ==> arr == old(arr) && arr[..] == Splice(was, old(len), bs)
      {
        var c := x % 128 + 128;
        if room {
          SpliceOne(was, old(len), bs, c);
        }
        EncodeMore(bs, x);
        bs := bs + [c];
        Append(c);
        x := x / 128;
      }
      if room {
        SpliceOne(was, old(len), bs, x);
      }
      EncodeLast(x);
      bs := bs + [x];
      Append(x);
    }

    method EncodeRawBytes(b: seq<byte>)
      requires Valid() && len + |Encode(|b|)| + |b| < TWO_63
      modifies this`arr, this`len, arr
      ensures Valid() && Contents() == old(Contents()) + Encode(|b|) + b && index == old(index)
    {
      EncodeVarint(|b|);
      AppendAll(b);
    }

    /** Four bytes are kept free for the length before the message is encoded. */
    method Reserve() returns (iLen: nat, iMsg: nat)
      requires Valid() && len + 4 < TWO_63
      modifies this`arr, this`len, arr
      ensures Valid() && Contents() == old(Contents()) + [0, 0, 0, 0] && index == old(index)
      ensures iLen == old(len) && iMsg == iLen + 4 == len
      ensures fresh(arr) || arr == old(arr)
    {
      iLen := len;
      AppendAll([0, 0, 0, 0]);
      iMsg := len;
    }

    /** Make the space before the message exactly as large as its length needs. */
    method Shift(iLen: nat, iMsg: nat, lMsg: nat, lLen: nat)
      requires Valid() && iMsg == iLen + 4 && iMsg + lMsg == len && index <= iLen && 1 <= lLen <= MAX_BYTES
      requires len + MAX_BYTES < TWO_63
      modifies this`arr, this`len, arr
      ensures Valid() && len == iLen + lLen + lMsg && index == old(index)
      ensures arr[..iLen] == old(arr[..iLen]) && arr[iLen + lLen..len] == old(arr[iMsg..len])
      ensures fresh(arr) || arr == old(arr)
    {
      var x := lLen - (iMsg - iLen);
      if x > 0 {
        ShiftRight(iLen, iMsg, lMsg, x);
      } else if x < 0 {
        MoveBlock(iLen, iMsg, iMsg + x, lMsg);
        len := len + x;
      }
    }

    method ShiftRight(iLen: nat, iMsg: nat, lMsg: nat, x: nat)
      requires Valid() && iLen <= iMsg && iMsg + lMsg == len && index <= iLen && 1 <= x && len + x < TWO_63
      modifies this`arr, this`len, arr
      ensures Valid() && len == old(len) + x && index == old(index)
      ensures arr[..iLen] == old(arr[..iLen]) && arr[iMsg + x..len] == old(arr[iMsg..len])
      ensures fresh(arr) || arr == old(arr)
    {
      hide Splice;
      ghost var was := Contents();
      AppendAll(seq(x, _ => 0));
      assert arr[..iLen] == Contents()[..iLen] == was[..iLen];
      assert arr[iMsg..iMsg + lMsg] == Contents()[iMsg..iMsg + lMsg] == was[iMsg..];
      MoveBlock(iLen, iMsg, iMsg + x, lMsg);
    }

    /** A copy within the array that reads everything before it writes. */
    method MoveBlock(keep: nat, src: nat, dst: nat, n: nat)
      requires src + n <= arr.Length && keep <= dst && dst + n <= arr.Length
      modifies arr
      ensures arr[dst..dst + n] == old(arr[src..src + n]) && arr[..keep] == old(arr[..keep])
    {
      forall k | dst <= k < dst + n {
        arr[k] := arr[k - dst + src];
      }
    }

    /** The message is in place; go back, write its length in the space before it, and take
        the message in again. */
    method WriteLength(iLen: nat, lMsg: nat)
      requires Valid() && lMsg < TWO_63 && len == iLen + |Encode(lMsg)| + lMsg && index <= iLen
      modifies this`arr, this`len, arr
      ensures Valid() && index == old(index)
      ensures Contents() == old(arr[..iLen]) + Encode(lMsg) + old(arr[iLen + |Encode(lMsg)|..len])
    {
      ghost var msg := arr[iLen + |Encode(lMsg)|..len];
      len := iLen;
      EncodeVarint(lMsg);
      assert arr[len..len + lMsg] == msg;
      len := len + lMsg;
    }

    /** Encode something that only appends, preceded by its length. `msg` is what it appends;
        `fatal` says that it then failed in a way that stops the encoding. */
    method EncLenThing(msg: seq<byte>, fatal: bool)
      requires Valid() && len + 4 + |msg| + MAX_BYTES < TWO_63
      modifies this`arr, this`len, arr
      ensures Valid() && index == old(index)
      ensures Contents() == old(Contents()) + (if fatal then [0, 0, 0, 0] else Encode(|msg|)) + msg
    {
      hide Splice, Encode, Size;
      ghost var prefix := Contents();
      var iLen, iMsg := Reserve();
      AppendAll(msg);
      if fatal {
        return;
      }
      var lMsg := len - iMsg;
      var lLen := SizeVarint(lMsg);
      MaxBytes(lMsg);
      assert arr[..iLen] == Contents()[..iLen] == prefix;
      assert arr[iMsg..len] == Contents()[iMsg..] == msg;
      Shift(iLen, iMsg, lMsg, lLen);
      WriteLength(iLen, lMsg);
    }

    /** On success the reader moves past the varint; on an error it stays. */
    method DecodeVarint() returns (x: nat, err: WireError)
      requires Valid()
      modifies this`index
      ensures Valid()
      ensures match Decode(old(Contents()[index..]))
              case Number(v, k) => err == NoError && x == v && index == old(index) + k
              case Short => err == UnexpectedEOF && index == old(index)
              case TooLong => err == Overflow && index == old(index)
    {
      hide Decode, PutDigit;
      ghost var b := Contents()[index..];
      x := 0;
      var i := index;
      var shift := 0;
      assert ReadSoFar(b, 0, x);
      while shift < 64
        invariant index == old(index) && b == old(Contents()[index..])
        invariant index <= i <= len && shift == 7 * (i - index) && ReadSoFar(b, i - index, x)
      {
        ReadEnds(b, i - index, x);
        if i >= len {
          err := UnexpectedEOF;
          return;
        }
        ReadOne(b, i - index, x);
        var c := arr[i];
        assert c == b[i - index];
        x := PutDigit(x, i - index, c);
        i := i + 1;
        if c < 128 {
          DecodeTakes(b);
          index := i;
          err := NoError;
          return;
        }
        shift := shift + 7;
      }
      ReadEnds(b, i - index, x);
      err := Overflow;
    }

    /** Read a length and that many bytes. After a bad length the reader stands behind it. */
    method DecodeRawBytes() returns (bytes: seq<byte>, err: WireError)
      requires Valid()
      modifies this`index
      ensures Valid()
      ensures var f := ReadField(old(Contents()[index..]));
              err == f.err && bytes == f.bytes && index == old(index) + f.taken
    {
      ghost var b := Contents()[index..];
      DecodeTakes(b);
      hide Decode;
      var n, e := DecodeVarint();
      if e != NoError {
        return [], e;
      }
      var nb := ToInt(n);
      if nb < 0 {
        return [], BadLength;
      }
      var end := AddInt(index, nb);
      if end < index || end > len {
        return [], UnexpectedEOF;
      }
      bytes := arr[index..end];
      index := end;
      err := NoError;
    }
  }

  lemma DecodeTakes(b: seq<byte>)
    ensures Decode(b).Number? ==> 1 <= Decode(b).n <= |b| && Decode(b).x < TWO_64
  {
  }

  /** What the length-prefixing encoder writes is what the decoder reads back: for every
      message, the same bytes and not one more or less. */
  method LengthPrefixRoundTrip(o: Buffer, msg: seq<byte>) returns (back: seq<byte>, err: WireError)
    requires o.Valid() && o.index == o.len && o.len + 4 + |msg| + MAX_BYTES < TWO_63
    modifies o, o.arr
    ensures err == NoError && back == msg && o.Valid() && o.index == o.len
  {
    ghost var start := o.index;
    ghost var prefix := o.Contents();
    o.EncLenThing(msg, false);
    assert o.Contents()[start..] == Encode(|msg|) + msg + [];
    FieldRoundTrip(msg, []);
    SizeIsLength(|msg|);
    back, err := o.DecodeRawBytes();
  }
}
