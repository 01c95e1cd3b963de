/** Byte order of net/Endian.h, for a host of either endianness, and the fixed-width
    integers of net/Buffer.h. */
module Endian {
  type Byte = n: nat | n < 256

  datatype Host = Little | Big

  function Pow256(w: nat): (p: nat)
    ensures p > 0
  {
    if w == 0 then 1 else 256 * Pow256(w - 1)
  }

  function Reverse(bs: seq<Byte>): (r: seq<Byte>)
    ensures |r| == |bs|
    ensures forall i :: 0 <= i < |bs| ==> r[i] == bs[|bs| - 1 - i]
  {
    if bs == [] then [] else Reverse(bs[1..]) + [bs[0]]
  }

  /** Least significant byte first. */
  function LittleEndian(u: nat, w: nat): (bs: seq<Byte>)
    ensures |bs| == w
  {
    if w == 0 then [] else [u % 256] + LittleEndian(u / 256, w - 1)
  }

  function FromLittleEndian(bs: seq<Byte>): (u: nat)
    ensures u < Pow256(|bs|)
  {
    if bs == [] then 0 else bs[0] + 256 * FromLittleEndian(bs[1..])
  }

  /** The number a byte string denotes in network order, most significant byte first. */
  function NetworkValue(bs: seq<Byte>): nat {
    if bs == [] then 0 else 256 * NetworkValue(bs[..|bs| - 1]) + bs[|bs| - 1]
  }

  // ----- the host's view of memory

  function ToMemory(h: Host, u: nat, w: nat): (bs: seq<Byte>)
    ensures |bs| == w
  {
    if h == Little then LittleEndian(u, w) else Reverse(LittleEndian(u, w))
  }

  function FromMemory(h: Host, bs: seq<Byte>): (u: nat)
    ensures u < Pow256(|bs|)
  {
    if h == Little then FromLittleEndian(bs) else FromLittleEndian(Reverse(bs))
  }

  function SwapBytes(u: nat, w: nat): (v: nat)
    ensures v < Pow256(w)
  {
    FromLittleEndian(Reverse(LittleEndian(u, w)))
  }

  /** htobe16/32/64. */
  function HostToNetwork(h: Host, u: nat, w: nat): nat {
    if h == Little then SwapBytes(u, w) else u
  }

  /** be16/32/64toh. */
  function NetworkToHost(h: Host, u: nat, w: nat): nat {
    if h == Little then SwapBytes(u, w) else u
  }

  // ----- signed integers of w bytes

  predicate InRange(x: int, w: nat) {
    w > 0 && -(Pow256(w) / 2) <= x < Pow256(w) / 2
  }

  function ToUnsigned(x: int, w: nat): (u: nat)
    requires InRange(x, w)
    ensures u < Pow256(w)
  {
    if x < 0 then x + Pow256(w) else x
  }

  function ToSigned(u: nat, w: nat): int {
    if u < Pow256(w) / 2 then u else u - Pow256(w)
  }

  /** The bytes that `append(&be, sizeof be)` copies after hostToNetwork. */
  function EncodeInt(h: Host, x: int, w: nat): (bs: seq<Byte>)
    requires InRange(x, w)
    ensures |bs| == w
  {
    ToMemory(h, HostToNetwork(h, ToUnsigned(x, w), w), w)
  }

  /** memcpy into an integer, then networkToHost. */
  function DecodeInt(h: Host, bs: seq<Byte>): int {
    ToSigned(NetworkToHost(h, FromMemory(h, bs), |bs|), |bs|)
  }

  // ----- round trips

  lemma {:induction false} LittleEndianRoundTrip(u: nat, w: nat)
    requires u < Pow256(w)
    ensures FromLittleEndian(LittleEndian(u, w)) == u
  {
    if w > 0 {
      LittleEndianRoundTrip(u / 256, w - 1);
    }
  }

  lemma {:induction false} FromLittleEndianRoundTrip(bs: seq<Byte>)
    ensures LittleEndian(FromLittleEndian(bs), |bs|) == bs
  {
    if bs != [] {
      FromLittleEndianRoundTrip(bs[1..]);
      assert bs == [bs[0]] + bs[1..];
    }
  }

  lemma {:induction false} ReversedIsNetworkOrder(bs: seq<Byte>)
    ensures NetworkValue(Reverse(bs)) == FromLittleEndian(bs)
  {
    if bs != [] {
      ReversedIsNetworkOrder(bs[1..]);
      assert Reverse(bs)[..|bs| - 1] == Reverse(bs[1..]);
    }
  }

  lemma ReverseReverse(bs: seq<Byte>)
    ensures Reverse(Reverse(bs)) == bs
  {
  }

  /** What goes on the wire is network order, whatever the host. */
  lemma EncodedInNetworkOrder(h: Host, x: int, w: nat)
    requires InRange(x, w)
    ensures NetworkValue(EncodeInt(h, x, w)) == ToUnsigned(x, w)
    ensures EncodeInt(Little, x, w) == EncodeInt(Big, x, w)
  {
    var u := ToUnsigned(x, w);
    FromLittleEndianRoundTrip(Reverse(LittleEndian(u, w)));
    ReversedIsNetworkOrder(LittleEndian(u, w));
    LittleEndianRoundTrip(u, w);
  }

  /** Reading on any host gives back what any host wrote. */
  lemma IntRoundTrip(writer: Host, reader: Host, x: int, w: nat)
    requires InRange(x, w)
    ensures DecodeInt(reader, EncodeInt(writer, x, w)) == x
  {
    var u := ToUnsigned(x, w);
    var le := LittleEndian(u, w);
    FromLittleEndianRoundTrip(Reverse(le));
    FromLittleEndianRoundTrip(le);
    LittleEndianRoundTrip(u, w);
    ReverseReverse(le);
    assert EncodeInt(writer, x, w) == Reverse(le);
    FromLittleEndianRoundTrip(Reverse(Reverse(le)));
    assert NetworkToHost(reader, FromMemory(reader, Reverse(le)), w) == u;
    HalfRange(w);
  }

  lemma HalfRange(w: nat)
    requires w > 0
    ensures Pow256(w) == 2 * (Pow256(w) / 2)
  {
  }
}
