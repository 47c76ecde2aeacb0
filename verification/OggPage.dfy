/**
 The bytes of an Ogg page: what the recorder lays out and what the reader takes apart.
 */
module OggPage {
  import opened Bits
  import opened OggCrc

  type Packet = seq<Byte>

  const HEADER_LEN: nat := 27

  // ----- Lacing -----

  /** A packet's size in segments: full ones of 255, then one shorter one. */
  function Lacing(size: nat): (t: seq<Byte>)
    ensures |t| == size / 255 + 1
  {
    if size < 255 then [size] else [255] + Lacing(size - 255)
  }

  function SegmentTable(packets: seq<Packet>): seq<Byte> {
    if packets == [] then [] else Lacing(|packets[0]|) + SegmentTable(packets[1..])
  }

  function Payload(packets: seq<Packet>): seq<Byte> {
    if packets == [] then [] else packets[0] + Payload(packets[1..])
  }

  function Sum(t: seq<Byte>): nat {
    if t == [] then 0 else t[0] + Sum(t[1..])
  }

  lemma {:induction false} SumConcat(a: seq<Byte>, b: seq<Byte>)
    ensures Sum(a + b) == Sum(a) + Sum(b)
  {
    if a == [] {
      assert a + b == b;
    } else {
      assert (a + b)[1..] == a[1..] + b;
      SumConcat(a[1..], b);
    }
  }

  lemma {:induction false} LacingSum(size: nat)
    ensures Sum(Lacing(size)) == size
  {
    if size >= 255 {
      LacingSum(size - 255);
      assert Lacing(size)[1..] == Lacing(size - 255);
    }
  }

  lemma {:induction false} TableCoversPayload(packets: seq<Packet>)
    ensures Sum(SegmentTable(packets)) == |Payload(packets)|
  {
    if packets != [] {
      TableCoversPayload(packets[1..]);
      LacingSum(|packets[0]|);
      SumConcat(Lacing(|packets[0]|), SegmentTable(packets[1..]));
    }
  }

  lemma {:induction false} LacingSnoc(packets: seq<Packet>, p: Packet)
    ensures SegmentTable(packets + [p]) == SegmentTable(packets) + Lacing(|p|)
  {
    hide Lacing, Payload;
    var all := packets + [p];
    if packets == [] {
      assert all == [p];
      assert SegmentTable([p]) == Lacing(|p|) + SegmentTable([]);
    } else {
      LacingSnoc(packets[1..], p);
      assert SegmentTable(packets) == Lacing(|packets[0]|) + SegmentTable(packets[1..]);
      assert all != [] && all[0] == packets[0] && all[1..] == packets[1..] + [p];
      assert SegmentTable(all) == Lacing(|packets[0]|) + SegmentTable(packets[1..] + [p]);
    }
  }

  lemma {:induction false} PayloadSnoc(packets: seq<Packet>, p: Packet)
    ensures Payload(packets + [p]) == Payload(packets) + p
  {
    hide Lacing, SegmentTable;
    var all := packets + [p];
    if packets == [] {
      assert all == [p];
      assert Payload([p]) == p + Payload([]);
    } else {
      PayloadSnoc(packets[1..], p);
      assert Payload(packets) == packets[0] + Payload(packets[1..]);
      assert all != [] && all[0] == packets[0] && all[1..] == packets[1..] + [p];
      assert Payload(all) == packets[0] + Payload(packets[1..] + [p]);
    }
  }

  lemma TableSnoc(packets: seq<Packet>, p: Packet)
    ensures SegmentTable(packets + [p]) == SegmentTable(packets) + Lacing(|p|)
    ensures Payload(packets + [p]) == Payload(packets) + p
  {
    LacingSnoc(packets, p);
    PayloadSnoc(packets, p);
  }

  /** The segment count of a page is one byte, so only this many segments can be counted. */
  predicate Fits(packets: seq<Packet>) {
    |SegmentTable(packets)| <= 255
  }

  lemma TimesSuccessor(k: nat, n: nat)
    requires n > 0
    ensures k * n == k + k * (n - 1)
  {}

  lemma {:induction false} TableAtMost(packets: seq<Packet>, k: nat)
    requires forall p | p in packets :: |p| / 255 + 1 <= k
    ensures |SegmentTable(packets)| <= k * |packets|
  {
    if packets != [] {
      assert packets[0] in packets;
      TableAtMost(packets[1..], k);
      TimesSuccessor(k, |packets|);
    }
  }

  lemma {:induction false} TableExactly(packets: seq<Packet>, k: nat)
    requires forall p | p in packets :: |p| / 255 + 1 == k
    ensures |SegmentTable(packets)| == k * |packets|
  {
    if packets != [] {
      assert packets[0] in packets;
      TableExactly(packets[1..], k);
      TimesSuccessor(k, |packets|);
    }
  }

  /** 1274 bytes is the largest packet size at which every page of 48 packets can be counted. */
  lemma FullPageFits(packets: seq<Packet>, size: nat)
    requires |packets| == 48 && forall p | p in packets :: |p| == size
    ensures Fits(packets) <==> size <= 1274
  {
    TableExactly(packets, size / 255 + 1);
  }

  lemma SmallPacketsFit(packets: seq<Packet>)
    requires |packets| <= 48 && forall p | p in packets :: |p| <= 1274
    ensures Fits(packets)
  {
    TableAtMost(packets, 5);
  }

  // ----- Writing a page -----

  const CAPTURE: seq<Byte> := [79, 103, 103, 83]  // "OggS"
  const BOS: Byte := 0x02
  const EOS: Byte := 0x04

  function PageHead(flags: Byte, granule: nat, seqNo: nat): (s: seq<Byte>)
    ensures |s| == 22 && s[..4] == CAPTURE
  {
    CAPTURE + [0, flags] + LittleEndian(granule, 8) + LittleEndian(0, 4) + LittleEndian(seqNo, 4)
  }

  function PageTail(table: seq<Byte>, payload: seq<Byte>): (s: seq<Byte>)
    ensures |s| == 1 + |table| + |payload|
  {
    [|table| % 256] + table + payload
  }

  /** A page with its checksum field still zero. */
  function RawPage(head: seq<Byte>, tail: seq<Byte>): seq<Byte> {
    head + [0, 0, 0, 0] + tail
  }

  function PageBytes(head: seq<Byte>, tail: seq<Byte>): (s: seq<Byte>)
    requires |head| == 22
    ensures |s| == 26 + |tail|
  {
    head + LittleEndian(Value(Crc(RawPage(head, tail))), 4) + tail
  }

  /** Section 6 of RFC 3533: the checksum is that of the page with the checksum field zeroed. */
  ghost predicate ChecksumHolds(page: seq<Byte>) {
    && |page| >= HEADER_LEN
    && var zeroed := page[..22] + [0, 0, 0, 0] + page[26..];
       exists r: Word :: IsRemainder(MessageBits(zeroed), r) && FromLittleEndian(page[22..26]) == Value(r)
  }

  lemma PageChecksumHolds(head: seq<Byte>, tail: seq<Byte>)
    requires |head| == 22 && tail != []
    ensures ChecksumHolds(PageBytes(head, tail))
  {
    hide Crc, IsRemainder, MessageBits, Value, LittleEndian, FromLittleEndian, RawPage;
    var page := PageBytes(head, tail);
    var zeroed := RawPage(head, tail);
    var r := Crc(zeroed);
    CrcIsRemainder(MessageBits(zeroed));
    CrcIsFed(zeroed);
    FourBytes(r);
    PageParts(head, tail, LittleEndian(Value(r), 4));
    assert IsRemainder(MessageBits(zeroed), r) && FromLittleEndian(page[22..26]) == Value(r);
  }

  lemma CrcIsFed(data: seq<Byte>)
    ensures Crc(data) == FeedBits(Zeros(32), MessageBits(data))
  {}

  lemma FourBytes(r: Word)
    ensures FromLittleEndian(LittleEndian(Value(r), 4)) == Value(r)
  {
    hide Value;
    ValueBound(r);
    PowersUsed();
    assert Pow256(4) == 0x1_0000_0000;
    LittleEndianRoundTrip(Value(r), 4);
  }

  lemma PageParts(head: seq<Byte>, tail: seq<Byte>, checksum: seq<Byte>)
    requires |head| == 22 && |checksum| == 4
    ensures
      var page := head + checksum + tail;
      && page[22..26] == checksum
      && page[..22] + [0, 0, 0, 0] + page[26..] == RawPage(head, tail)
  {
    var page := head + checksum + tail;
    assert page[..22] == head && page[26..] == tail;
  }

  method BuildPage(crcTable: array<Word>, flags: Byte, granule: nat, seqNo: nat, table: seq<Byte>, payload: seq<Byte>)
    returns (page: seq<Byte>)
    requires IsTable(crcTable[..])
    ensures page == PageBytes(PageHead(flags, granule, seqNo), PageTail(table, payload))
  {
    hide LittleEndian, PageHead, PageTail, RawPage, Value, IsTable, Crc;
    page := CAPTURE + [0, flags] + LittleEndian(granule, 8) + LittleEndian(0, 4) + LittleEndian(seqNo, 4)
      + LittleEndian(0, 4) + [|table| % 256] + table + payload;
    IsRawPage(flags, granule, seqNo, table, payload, page);
    var checksum := OggCrc32(crcTable, page);
    ChecksumInPlace(PageHead(flags, granule, seqNo), PageTail(table, payload), LittleEndian(Value(checksum), 4));
    page := page[..22] + LittleEndian(Value(checksum), 4) + page[26..];
  }

  lemma IsRawPage(flags: Byte, granule: nat, seqNo: nat, table: seq<Byte>, payload: seq<Byte>, page: seq<Byte>)
    requires page == CAPTURE + [0, flags] + LittleEndian(granule, 8) + LittleEndian(0, 4) + LittleEndian(seqNo, 4)
      + LittleEndian(0, 4) + [|table| % 256] + table + payload
    ensures page == RawPage(PageHead(flags, granule, seqNo), PageTail(table, payload))
  {
    hide LittleEndian;
    NoBytes();
    Regroup(PageHead(flags, granule, seqNo), [0, 0, 0, 0], [|table| % 256], table, payload);
  }

  lemma NoBytes()
    ensures LittleEndian(0, 4) == [0, 0, 0, 0]
  {}

  lemma Regroup(a: seq<Byte>, b: seq<Byte>, c: seq<Byte>, d: seq<Byte>, e: seq<Byte>)
    ensures a + b + c + d + e == a + b + (c + d + e)
  {}

  lemma ChecksumInPlace(head: seq<Byte>, tail: seq<Byte>, checksum: seq<Byte>)
    requires |head| == 22 && |checksum| == 4
    ensures |RawPage(head, tail)| >= 26
    ensures RawPage(head, tail)[..22] + checksum + RawPage(head, tail)[26..] == head + checksum + tail
  {
    var raw := RawPage(head, tail);
    assert raw[..22] == head && raw[26..] == tail;
  }

  /** The segment table of one packet. */
  method Lace(size: nat, before: seq<Byte>) returns (segTable: seq<Byte>)
    ensures segTable == before + Lacing(size)
  {
    segTable := before;
    var remaining: nat := size;
    while remaining >= 255
      invariant segTable + Lacing(remaining) == before + Lacing(size)
    {
      segTable := segTable + [255];
      remaining := remaining - 255;
    }
    segTable := segTable + [remaining];
  }

  method LaceAll(packets: seq<Packet>) returns (segTable: seq<Byte>, payload: seq<Byte>)
    ensures segTable == SegmentTable(packets) && payload == Payload(packets)
  {
    segTable, payload := [], [];
    for i := 0 to |packets|
      invariant segTable == SegmentTable(packets[..i]) && payload == Payload(packets[..i])
    {
      segTable := Lace(|packets[i]|, segTable);
      payload := payload + packets[i];
      assert packets[..i + 1] == packets[..i] + [packets[i]];
      TableSnoc(packets[..i], packets[i]);
    }
    assert packets[..|packets|] == packets;
  }

  // ----- Reading a page -----

  datatype NextPage =
    | NoPage                    // fewer than 27 bytes left
    | BadSignature
    | ShortTable
    | ShortPayload
    | Found(table: seq<Byte>, payload: seq<Byte>, rest: seq<Byte>)

  function ReadPage(data: seq<Byte>): (p: NextPage)
    ensures p.Found? ==> |p.rest| < |data| && |p.payload| == Sum(p.table)
  {
    if |data| < HEADER_LEN then NoPage
    else if data[..4] != CAPTURE then BadSignature
    else
      var count := data[26];
      if |data| < HEADER_LEN + count then ShortTable
      else
        var table := data[HEADER_LEN..HEADER_LEN + count];
        var body := HEADER_LEN + count;
        var size := Sum(table);
        if |data| < body + size then ShortPayload
        else Found(table, data[body..body + size], data[body + size..])
  }

  ghost predicate LaidOut(page: seq<Byte>, table: seq<Byte>, payload: seq<Byte>) {
    && |page| == HEADER_LEN + |table| + |payload|
    && page[..4] == CAPTURE && page[26] == |table| % 256
    && page[HEADER_LEN..HEADER_LEN + |table|] == table
    && page[HEADER_LEN + |table|..] == payload
  }

  lemma PageIsLaidOut(head: seq<Byte>, table: seq<Byte>, payload: seq<Byte>)
    requires |head| == 22 && head[..4] == CAPTURE
    ensures LaidOut(PageBytes(head, PageTail(table, payload)), table, payload)
  {
    var page := PageBytes(head, PageTail(table, payload));
    assert page[26..] == PageTail(table, payload);
    assert page[..4] == head[..4];
    assert page[HEADER_LEN..HEADER_LEN + |table|] == page[26..][1..1 + |table|];
  }

  lemma CountedPage(page: seq<Byte>, table: seq<Byte>, payload: seq<Byte>, rest: seq<Byte>)
    requires LaidOut(page, table, payload) && Sum(table) == |payload| && |table| <= 255
    ensures ReadPage(page + rest) == Found(table, payload, rest)
  {
    var data := page + rest;
    var body := HEADER_LEN + |table|;
    assert data[..4] == page[..4] && data[HEADER_LEN..body] == page[HEADER_LEN..body];
    assert data[body..|page|] == payload && data[|page|..] == rest;
  }

  lemma MiscountedPage(data: seq<Byte>, n: nat)
    requires |data| >= HEADER_LEN && data[26] == n % 256 && n > 255
    ensures ReadPage(data).Found? ==> |ReadPage(data).table| < n
  {}

  /** A page reads back as it was written exactly when its segments can be counted. */
  lemma PageReadsBack(head: seq<Byte>, table: seq<Byte>, payload: seq<Byte>, rest: seq<Byte>)
    requires |head| == 22 && head[..4] == CAPTURE && Sum(table) == |payload|
    ensures ReadPage(PageBytes(head, PageTail(table, payload)) + rest) == Found(table, payload, rest) <==> |table| <= 255
  {
    var page := PageBytes(head, PageTail(table, payload));
    PageIsLaidOut(head, table, payload);
    if |table| <= 255 {
      CountedPage(page, table, payload, rest);
    } else {
      MiscountedPage(page + rest, |table|);
    }
  }
}
