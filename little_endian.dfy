/**
 * Fixed-width little-endian integers, unsigned and two's complement: the byte
 * layouts the base data types are written in (least significant byte first,
 * independent of the host).
 */
module LittleEndian {

  /** An octet of a buffer. */
  newtype byte = b: int | 0 <= b < 256

  /** 256^n, the number of values n bytes can hold. */
  function Pow256(n: nat): (r: nat)
    ensures r >= 1
  {
    if n == 0 then 1 else 256 * Pow256(n - 1)
  }

  /** The unsigned value v as n bytes, least significant first. */
  function EncodeLE(v: nat, n: nat): (r: seq<byte>)
    requires v < Pow256(n)
    ensures |r| == n
    ensures n > 0 ==> r[0] as nat == v % 256
  {
    if n == 0 then [] else [(v % 256) as byte] + EncodeLE(v / 256, n - 1)
  }

  /** The unsigned value of bytes read least significant first. */
  function DecodeLE(bs: seq<byte>): (r: nat)
    ensures r < Pow256(|bs|)
  {
    if bs == [] then 0 else bs[0] as nat + 256 * DecodeLE(bs[1..])
  }

  /** Decoding undoes encoding. */
  lemma {:induction false} DecodeEncodeLE(v: nat, n: nat)
    requires v < Pow256(n)
    ensures DecodeLE(EncodeLE(v, n)) == v
  {
    if n > 0 {
      var r := EncodeLE(v, n);
      assert r[1..] == EncodeLE(v / 256, n - 1);
      DecodeEncodeLE(v / 256, n - 1);
    }
  }

  /** Encoding undoes decoding: every byte string is the encoding of its value. */
  lemma {:induction false} EncodeDecodeLE(bs: seq<byte>)
    ensures EncodeLE(DecodeLE(bs), |bs|) == bs
  {
    if bs != [] {
      var v := DecodeLE(bs);
      assert v % 256 == bs[0] as nat && v / 256 == DecodeLE(bs[1..]);
      EncodeDecodeLE(bs[1..]);
    }
  }

  datatype Signedness = Unsigned | Signed

  /** Half of 256^n: the first value whose top bit is set. */
  function Half(n: nat): (r: int)
    requires n > 0
  {
    Pow256(n) / 2
  }

  /** The values an n-byte integer of the given signedness holds. */
  predicate InRange(s: Signedness, n: nat, v: int)
    requires n > 0
  {
    match s
    case Unsigned => 0 <= v < Pow256(n)
    case Signed => -Half(n) <= v < Half(n)
  }

  /** The n bytes of v; a negative v is written as its two's complement v + 256^n. */
  function EncodeInt(s: Signedness, n: nat, v: int): (r: seq<byte>)
    requires n > 0 && InRange(s, n, v)
    ensures |r| == n
  {
    EncodeLE(if v < 0 then v + Pow256(n) else v, n)
  }

  /** The value of bytes read with the given signedness: with Signed, a set top bit makes it negative. */
  function DecodeInt(s: Signedness, bs: seq<byte>): (r: int)
    requires |bs| > 0
    ensures InRange(s, |bs|, r)
  {
    var u := DecodeLE(bs);
    HalfOfPow256(|bs|);
    if s == Signed && u >= Half(|bs|) then u - Pow256(|bs|) else u
  }

  lemma HalfOfPow256(n: nat)
    requires n > 0
    ensures 2 * Half(n) == Pow256(n) && Half(n) >= 128
  {
    assert Pow256(n) == 256 * Pow256(n - 1);
  }

  /** Reading with the signedness the value was written with gives it back. */
  lemma IntRoundTrip(s: Signedness, n: nat, v: int)
    requires n > 0 && InRange(s, n, v)
    ensures DecodeInt(s, EncodeInt(s, n, v)) == v
  {
    HalfOfPow256(n);
    DecodeEncodeLE(if v < 0 then v + Pow256(n) else v, n);
  }

  /** Every n-byte string is the encoding of the value read from it. */
  lemma IntBytesRoundTrip(s: Signedness, bs: seq<byte>)
    requires |bs| > 0
    ensures EncodeInt(s, |bs|, DecodeInt(s, bs)) == bs
  {
    HalfOfPow256(|bs|);
    EncodeDecodeLE(bs);
  }

  /**
   * Writing unsigned and reading signed gives back v below half the range
   * and v - 256^n from there on.
   */
  lemma UnsignedReadSigned(n: nat, v: int)
    requires n > 0 && InRange(Unsigned, n, v)
    ensures DecodeInt(Signed, EncodeInt(Unsigned, n, v)) == if v < Half(n) then v else v - Pow256(n)
  {
    DecodeEncodeLE(v, n);
  }
}
