/** The fixed 24-byte header every variant puts in front of its payload:
    `struct` format `'!4s B B I I Q H'` (network byte order, no padding) for
    magic, version, message type, snapshot id, sequence number, timestamp and
    payload length. */
module Wire {
  import opened Common
  import Utf8

  const HeaderSize: nat := 24

  /** The magic tag of the GCLP variants (`b'GCLP'`). */
  const GclpMagic: seq<byte> := [0x47, 0x43, 0x4C, 0x50]
  /** The magic tag of the stop-and-wait variant (`b'DOMX'`). */
  const DomxMagic: seq<byte> := [0x44, 0x4F, 0x4D, 0x58]

  datatype Header = Header(
    magic: seq<byte>,
    version: int,
    msgType: int,
    snapshotId: int,
    seqNo: int,
    timestamp: int,
    payloadLen: int)

  /** A datagram a handler hands to `sendto`: the destination, the header
      fields and the payload text that follows the header. */
  datatype Outgoing = Outgoing(to: Addr, header: Header, payload: string)

  function Pow256(n: nat): nat
  {
    if n == 0 then 1 else 256 * Pow256(n - 1)
  }

  /** The value fits an unsigned field of `n` bytes. */
  predicate InWidth(x: int, n: nat) { 0 <= x < Pow256(n) }

  /** `x` as `n` bytes, most significant first. */
  function ToBE(x: nat, n: nat): (r: seq<byte>)
    requires x < Pow256(n)
    ensures |r| == n
  {
    if n == 0 then [] else ToBE(x / 256, n - 1) + [x % 256]
  }

  /** The unsigned value of big-endian bytes. */
  function FromBE(bs: seq<byte>): nat
  {
    if bs == [] then 0 else FromBE(bs[..|bs| - 1]) * 256 + bs[|bs| - 1]
  }

  /** `struct.pack` raises `struct.error` unless every integer fits its field. */
  predicate Fits(h: Header)
  {
    && InWidth(h.version, 1) && InWidth(h.msgType, 1)
    && InWidth(h.snapshotId, 4) && InWidth(h.seqNo, 4)
    && InWidth(h.timestamp, 8) && InWidth(h.payloadLen, 2)
  }

  /** The `4s` field: the tag cut to four bytes, or padded with NULs. */
  function Tag4(m: seq<byte>): (r: seq<byte>)
    ensures |r| == 4
    ensures |m| >= 4 ==> r == m[..4]
    ensures |m| < 4 ==> r[..|m|] == m && forall i :: |m| <= i < 4 ==> r[i] == 0
  {
    if |m| >= 4 then m[..4] else m + seq(4 - |m|, _ => 0)
  }

  /** `struct.pack(HEADER_FORMAT, ...)`, `None` where it raises. */
  function Pack(h: Header): (r: Option<seq<byte>>)
    ensures r.Some? <==> Fits(h)
    ensures r.Some? ==> |r.value| == HeaderSize
  {
    if !Fits(h) then None
    else Some(Tag4(h.magic) + ToBE(h.version, 1) + ToBE(h.msgType, 1) + ToBE(h.snapshotId, 4)
              + ToBE(h.seqNo, 4) + ToBE(h.timestamp, 8) + ToBE(h.payloadLen, 2))
  }

  /** `struct.unpack(HEADER_FORMAT, data[:HEADER_SIZE])`, `None` where it
      raises because fewer than 24 bytes arrived. The magic is returned, never
      compared with anything. */
  function Unpack(data: seq<byte>): (r: Option<Header>)
    ensures r.Some? <==> |data| >= HeaderSize
  {
    if |data| < HeaderSize then None
    else Some(Header(data[0..4], FromBE(data[4..5]), FromBE(data[5..6]), FromBE(data[6..10]),
                     FromBE(data[10..14]), FromBE(data[14..22]), FromBE(data[22..24])))
  }

  /** `data[HEADER_SIZE:HEADER_SIZE + payload_len]`: Python's slice stops at
      the end of the datagram when the header claims more. */
  function PayloadBytes(data: seq<byte>, h: Header): (r: seq<byte>)
    requires |data| >= HeaderSize
    ensures |r| == Min(|data| - HeaderSize, Max(h.payloadLen, 0))
    ensures r == data[HeaderSize..HeaderSize + |r|]
  {
    data[HeaderSize..HeaderSize + Min(|data| - HeaderSize, Max(h.payloadLen, 0))]
  }

  /** The payload bytes decoded as UTF-8, `None` where `.decode()` raises. */
  function PayloadText(data: seq<byte>, h: Header): Option<string>
    requires |data| >= HeaderSize
  {
    Utf8.Decode(PayloadBytes(data, h))
  }

  /** A header with version 1 whose length field is the encoded payload's size. */
  function MakeHeader(magic: seq<byte>, msgType: int, snapshotId: int, seqNo: int, now: Millis, payload: string): Header
  {
    Header(magic, 1, msgType, snapshotId, seqNo, now, |Utf8.Encode(payload)|)
  }

  /** `response + payload.encode()`. */
  function Datagram(o: Outgoing): seq<byte>
    requires Fits(o.header)
  {
    Pack(o.header).value + Utf8.Encode(o.payload)
  }

  // ---------------------------------------------------------------- lemmas

  lemma {:induction false} FromToBE(x: nat, n: nat)
    requires x < Pow256(n)
    ensures FromBE(ToBE(x, n)) == x
  {
    if n > 0 {
      var t := ToBE(x / 256, n - 1);
      FromToBE(x / 256, n - 1);
      assert (t + [x % 256])[..|t|] == t;
    }
  }

  lemma {:induction false} ToFromBE(bs: seq<byte>)
    ensures FromBE(bs) < Pow256(|bs|)
    ensures ToBE(FromBE(bs), |bs|) == bs
  {
    if bs != [] {
      var init := bs[..|bs| - 1];
      ToFromBE(init);
      var x := FromBE(bs);
      assert x / 256 == FromBE(init) && x % 256 == bs[|bs| - 1];
      assert init + [bs[|bs| - 1]] == bs;
    }
  }

  /** Unpacking a packed header gives its fields back, whatever payload
      follows; the tag comes back as the four bytes `4s` wrote. */
  lemma UnpackPack(h: Header, rest: seq<byte>)
    requires Fits(h)
    ensures Unpack(Pack(h).value + rest) == Some(h.(magic := Tag4(h.magic)))
  {
    var d := Pack(h).value + rest;
    var t := Tag4(h.magic);
    var b1 := ToBE(h.version, 1);
    var b2 := ToBE(h.msgType, 1);
    var b3 := ToBE(h.snapshotId, 4);
    var b4 := ToBE(h.seqNo, 4);
    var b5 := ToBE(h.timestamp, 8);
    var b6 := ToBE(h.payloadLen, 2);
    var a1 := t + b1;
    var a2 := a1 + b2;
    var a3 := a2 + b3;
    var a4 := a3 + b4;
    var a5 := a4 + b5;
    var a6 := a5 + b6;
    assert d == a6 + rest;
    FromToBE(h.version, 1);
    FromToBE(h.msgType, 1);
    FromToBE(h.snapshotId, 4);
    FromToBE(h.seqNo, 4);
    FromToBE(h.timestamp, 8);
    FromToBE(h.payloadLen, 2);
    Tail(a5, b6);
    Tail(a4, b5);
    Tail(a3, b4);
    Tail(a2, b3);
    Tail(a1, b2);
    Tail(t, b1);
    Front(a6, rest, 0, 4); Front(a5, b6, 0, 4); Front(a4, b5, 0, 4);
    Front(a3, b4, 0, 4); Front(a2, b3, 0, 4); Front(a1, b2, 0, 4); Front(t, b1, 0, 4);
    Front(a6, rest, 4, 5); Front(a5, b6, 4, 5); Front(a4, b5, 4, 5);
    Front(a3, b4, 4, 5); Front(a2, b3, 4, 5); Front(a1, b2, 4, 5);
    Front(a6, rest, 5, 6); Front(a5, b6, 5, 6); Front(a4, b5, 5, 6);
    Front(a3, b4, 5, 6); Front(a2, b3, 5, 6);
    Front(a6, rest, 6, 10); Front(a5, b6, 6, 10); Front(a4, b5, 6, 10); Front(a3, b4, 6, 10);
    Front(a6, rest, 10, 14); Front(a5, b6, 10, 14); Front(a4, b5, 10, 14);
    Front(a6, rest, 14, 22); Front(a5, b6, 14, 22);
    Front(a6, rest, 22, 24);
  }

  /** The bytes appended after `p` are where they were put. */
  lemma Tail(p: seq<byte>, x: seq<byte>)
    ensures (p + x)[|p|..|p| + |x|] == x
  {
  }

  /** Appending bytes leaves the slices of what was there unchanged. */
  lemma Front(p: seq<byte>, x: seq<byte>, i: int, j: int)
    requires 0 <= i <= j <= |p|
    ensures (p + x)[i..j] == p[i..j]
  {
  }

  /** Every 24 bytes are some header: unpacking never fails on length alone
      and packing the result reproduces the bytes. */
  lemma PackUnpack(data: seq<byte>)
    requires |data| >= HeaderSize
    ensures Unpack(data).Some? && Fits(Unpack(data).value)
    ensures Pack(Unpack(data).value) == Some(data[..HeaderSize])
  {
    ToFromBE(data[4..5]);
    ToFromBE(data[5..6]);
    ToFromBE(data[6..10]);
    ToFromBE(data[10..14]);
    ToFromBE(data[14..22]);
    ToFromBE(data[22..24]);
    var h := Unpack(data).value;
    assert Fits(h);
    assert Tag4(h.magic) == data[0..4];
    assert data[..HeaderSize] == data[0..4] + data[4..5] + data[5..6] + data[6..10]
                                 + data[10..14] + data[14..22] + data[22..24];
  }

  /** A datagram a sender builds reads back, at the receiver, as the same
      header and the same payload text. */
  lemma DatagramRoundTrip(o: Outgoing)
    requires Fits(o.header) && |o.header.magic| == 4
    requires o.header.payloadLen == |Utf8.Encode(o.payload)|
    ensures Unpack(Datagram(o)) == Some(o.header)
    ensures PayloadText(Datagram(o), o.header) == Some(o.payload)
  {
    var d := Datagram(o);
    UnpackPack(o.header, Utf8.Encode(o.payload));
    assert o.header.(magic := Tag4(o.header.magic)) == o.header;
    assert PayloadBytes(d, o.header) == Utf8.Encode(o.payload);
    Utf8.DecodeEncode(o.payload);
  }
}
