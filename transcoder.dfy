// The raw transcoder between doubles and the byte arrays stored in memcached:
// the IEEE 754 binary64 bit pattern of a double as 8 big-endian bytes, and
// the encoding of byte arrays as cached data tagged "raw".

module RawTranscoder {
  import opened Wrappers

  /** A byte, read unsigned. */
  type Byte = b: int | 0 <= b < 256

  const TwoTo64: nat := 0x1_0000_0000_0000_0000

  /** The 64-bit pattern of a double (Double.doubleToLongBits), read unsigned. */
  type Bits64 = x: int | 0 <= x < TwoTo64

  function Pow256(n: nat): (r: nat)
    ensures r >= 1
  {
    if n == 0 then 1 else 256 * Pow256(n - 1)
  }

  /** (bits >> 8·(7-i)) & 0xff: the byte of rank `i`, rank 0 being the most
    * significant. */
  function ByteOf(bits: Bits64, i: nat): Byte
    requires i < 8
  {
    (bits / Pow256(7 - i)) % 256
  }

  /** ByteBuffer.getLong: the bytes read big-endian. */
  function FromBigEndian(b: seq<Byte>): nat {
    if |b| == 0 then 0 else FromBigEndian(b[..|b| - 1]) * 256 + b[|b| - 1]
  }

  /** The 8 bytes of a bit pattern, most significant first. */
  function BigEndianBytes(bits: Bits64): (b: seq<Byte>)
    ensures |b| == 8
  {
    seq(8, i requires 0 <= i < 8 => ByteOf(bits, i))
  }

  lemma MulNonNeg(a: int, b: int)
    requires a >= 0 && b >= 0
    ensures a * b >= 0
  {
  }

  /** Quotient and remainder are the only ones of their kind. */
  lemma DivUnique(x: int, d: int, q: int, r: int)
    requires d > 0 && 0 <= r < d && x == q * d + r
    ensures x / d == q && x % d == r
  {
    var k := x / d;
    if q > k {
      MulNonNeg(q - k - 1, d);
      assert false;
    } else if q < k {
      MulNonNeg(k - q - 1, d);
      assert false;
    }
  }

  lemma DivDiv(x: nat, a: nat)
    requires a > 0
    ensures x / (256 * a) == (x / a) / 256
  {
    var q := x / a;
    var r := x % a;
    var q2 := q / 256;
    var r2 := q % 256;
    assert x == q * a + r;
    assert q == q2 * 256 + r2;
    assert q * a == q2 * (256 * a) + r2 * a;
    MulNonNeg(255 - r2, a);
    DivUnique(x, 256 * a, q2, r2 * a + r);
  }

  /** The first k bytes read big-endian are the pattern without its 8-k low bytes. */
  lemma {:induction false} PrefixValue(bits: Bits64, k: nat)
    requires k <= 8
    ensures FromBigEndian(BigEndianBytes(bits)[..k]) == bits / Pow256(8 - k)
  {
    var b := BigEndianBytes(bits);
    if k == 0 {
      assert Pow256(8) == TwoTo64;
    } else {
      PrefixValue(bits, k - 1);
      var p := Pow256(8 - k);
      var y := bits / p;
      assert Pow256(8 - (k - 1)) == 256 * p;
      DivDiv(bits, p);
      assert FromBigEndian(b[..k - 1]) == y / 256;
      assert b[..k][..k - 1] == b[..k - 1];
      assert b[..k][k - 1] == b[k - 1] == ByteOf(bits, k - 1) == y % 256;
      assert FromBigEndian(b[..k]) == (y / 256) * 256 + y % 256;
    }
  }

  /** Reading back the bytes of a pattern gives the pattern. */
  lemma BitsRoundTrip(bits: Bits64)
    ensures FromBigEndian(BigEndianBytes(bits)) == bits
  {
    PrefixValue(bits, 8);
    assert BigEndianBytes(bits)[..8] == BigEndianBytes(bits);
  }

  lemma {:induction false} FromBigEndianBound(s: seq<Byte>)
    ensures FromBigEndian(s) < Pow256(|s|)
  {
    if |s| > 0 {
      FromBigEndianBound(s[..|s| - 1]);
      var v := FromBigEndian(s[..|s| - 1]);
      assert v * 256 <= (Pow256(|s| - 1) - 1) * 256;
    }
  }

  lemma {:induction false} SplitValue(a: seq<Byte>, c: seq<Byte>)
    ensures FromBigEndian(a + c) == FromBigEndian(a) * Pow256(|c|) + FromBigEndian(c)
  {
    if |c| == 0 {
      assert a + c == a;
    } else {
      var c' := c[..|c| - 1];
      assert (a + c)[..|a + c| - 1] == a + c';
      SplitValue(a, c');
      var fa := FromBigEndian(a);
      var p := Pow256(|c'|);
      var last := c[|c| - 1] as int;
      assert c[..|c| - 1] == c';
      assert FromBigEndian(c) == FromBigEndian(c') * 256 + last;
      assert Pow256(|c|) == 256 * p;
      assert FromBigEndian(a + c) == (fa * p + FromBigEndian(c')) * 256 + last;
      ShiftSum(fa, p, FromBigEndian(c'));
    }
  }

  lemma ShiftSum(h: int, p: int, l: int)
    ensures (h * p + l) * 256 == h * (256 * p) + l * 256
  {
  }

  /** Splitting 8 bytes read big-endian gives the same bytes back. */
  lemma BytesRoundTrip(b: seq<Byte>)
    requires |b| == 8
    ensures FromBigEndian(b) < TwoTo64
    ensures BigEndianBytes(FromBigEndian(b) as Bits64) == b
  {
    FromBigEndianBound(b);
    assert Pow256(8) == TwoTo64;
    var bits := FromBigEndian(b) as Bits64;
    forall i | 0 <= i < 8
      ensures ByteOf(bits, i) == b[i]
    {
      var a := b[..i + 1];
      var c := b[i + 1..];
      assert a + c == b;
      SplitValue(a, c);
      FromBigEndianBound(c);
      DivUnique(bits, Pow256(7 - i), FromBigEndian(a), FromBigEndian(c));
      assert a[..i] == b[..i];
      DivUnique(FromBigEndian(a), 256, FromBigEndian(b[..i]), b[i]);
    }
  }

  /**
   * toRawByteArray: a fresh array of 8 bytes filled in a loop from the bit
   * pattern of the double, most significant byte first.
   */
  method ToRawByteArray(bits: Bits64) returns (output: array<Byte>)
    ensures fresh(output) && output.Length == 8
    ensures output[..] == BigEndianBytes(bits)
    ensures FromBigEndian(output[..]) == bits
  {
    output := new Byte[8];
    var i := 0;
    while i < 8
      invariant 0 <= i <= 8
      invariant forall j :: 0 <= j < i ==> output[j] == ByteOf(bits, j)
    {
      output[i] := ByteOf(bits, i);
      i := i + 1;
    }
    BitsRoundTrip(bits);
  }

  /** Flag of the cached data produced by this transcoder. */
  const FlagRawData: int := 0xE

  /** Data stored in memcached: the transcoder's flags and the bytes. */
  datatype CachedData = CachedData(flags: int, data: seq<Byte>)

  /**
   * encode: the bytes as they are, tagged with the raw-data flag. The cached
   * data of the client library refuses data longer than the maximum size it
   * is given (an IllegalArgumentException, here None).
   */
  function Encode(o: seq<Byte>, maxSize: nat): (r: Option<CachedData>)
    ensures r.Some? <==> |o| <= maxSize
    ensures r.Some? ==> r.value.flags == FlagRawData
  {
    if |o| <= maxSize then Some(CachedData(FlagRawData, o)) else None
  }

  /** decode: the stored bytes, whatever the flags. */
  function Decode(d: CachedData): seq<Byte> {
    d.data
  }

  /** asyncDecode: decoding never needs to be asynchronous. */
  function AsyncDecode(d: CachedData): (r: bool)
    ensures !r
  {
    false
  }

  /** Decoding what was encoded gives the same bytes back. */
  lemma DecodeEncode(o: seq<Byte>, maxSize: nat)
    requires |o| <= maxSize
    ensures Encode(o, maxSize).Some? && Decode(Encode(o, maxSize).value) == o
  {
  }

  /** Encoding what was decoded from raw data gives the same cached data. */
  lemma EncodeDecode(d: CachedData, maxSize: nat)
    requires d.flags == FlagRawData && |d.data| <= maxSize
    ensures Encode(Decode(d), maxSize) == Some(d)
  {
  }

  /** A double's bytes always fit, whatever limit of at least 8 bytes. */
  method EncodeDouble(bits: Bits64, maxSize: nat) returns (r: Option<CachedData>)
    requires maxSize >= 8
    ensures r.Some? && r.value.flags == FlagRawData && FromBigEndian(Decode(r.value)) == bits
  {
    var bytes := ToRawByteArray(bits);
    r := Encode(bytes[..], maxSize);
  }
}
