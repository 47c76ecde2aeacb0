/**
 Whole recordings: two header pages, then one page for each group of packets flushed
 together, and what the reader makes of them.
 */
module OggStream {
  import opened Bits
  import opened OggCrc
  import opened OggPage
  import opened OggReader

  const SAMPLES_PER_FRAME: nat := 960
  const PAGE_PACKETS: nat := 48

  // The page counters are 64 and 32 bits wide and wrap around.
  const U64: nat := 0x1_0000_0000_0000_0000
  const U32: nat := 0x1_0000_0000

  function GroupPage(group: seq<Packet>, flags: Byte, granule: nat, seqNo: nat): seq<Byte> {
    PageBytes(PageHead(flags, granule, seqNo), PageTail(SegmentTable(group), Payload(group)))
  }

  /** A header page holds one packet, outside the sample count; the first page begins the stream. */
  function HeaderPage(packet: Packet, n: nat): seq<Byte> {
    GroupPage([packet], if n == 0 then BOS else 0, 0, n)
  }

  datatype Headers = Headers(head: Packet, tags: Packet)

  method BuildGroupPage(crcTable: array<Word>, ghost group: seq<Packet>, segTable: seq<Byte>, payload: seq<Byte>,
                        flags: Byte, granule: nat, seqNo: nat)
    returns (page: seq<Byte>)
    requires IsTable(crcTable[..])
    requires segTable == SegmentTable(group) && payload == Payload(group)
    ensures page == GroupPage(group, flags, granule, seqNo)
  {
    page := BuildPage(crcTable, flags, granule, seqNo, segTable, payload);
  }

  function Flatten<T>(groups: seq<seq<T>>): seq<T> {
    if groups == [] then [] else groups[0] + Flatten(groups[1..])
  }

  lemma {:induction false} FlattenSnoc<T>(groups: seq<seq<T>>, g: seq<T>)
    ensures Flatten(groups + [g]) == Flatten(groups) + g
  {
    if groups == [] {
      assert groups + [g] == [g];
      assert Flatten([g]) == g + [];
    } else {
      assert (groups + [g])[1..] == groups[1..] + [g];
      FlattenSnoc(groups[1..], g);
    }
  }

  /** The page of the last group, after n groups and `before` packets. */
  function LastPage(group: seq<Packet>, n: nat, before: nat, ended: bool): seq<Byte> {
    GroupPage(group, if ended then EOS else 0, SAMPLES_PER_FRAME * (before + |group|) % U64, (n + 2) % U32)
  }

  /** The data pages: consecutive page numbers, and 960 samples for every packet so far. */
  function DataPages(groups: seq<seq<Packet>>, ended: bool): seq<seq<Byte>> {
    if groups == [] then []
    else
      var n := |groups| - 1;
      DataPages(groups[..n], false) + [LastPage(groups[n], n, |Flatten(groups[..n])|, ended)]
  }

  function Stream(h: Headers, groups: seq<seq<Packet>>, ended: bool): seq<Byte> {
    HeaderPage(h.head, 0) + (HeaderPage(h.tags, 1) + Flatten(DataPages(groups, ended)))
  }

  lemma DataPagesSnoc(groups: seq<seq<Packet>>, g: seq<Packet>, ended: bool)
    ensures Flatten(DataPages(groups + [g], ended))
         == Flatten(DataPages(groups, false)) + LastPage(g, |groups|, |Flatten(groups)|, ended)
  {
    assert (groups + [g])[..|groups|] == groups;
    FlattenSnoc(DataPages(groups, false), LastPage(g, |groups|, |Flatten(groups)|, ended));
  }

  lemma AppendInside(a: seq<Byte>, b: seq<Byte>, c: seq<Byte>, d: seq<Byte>)
    ensures a + (b + (c + d)) == a + (b + c) + d
  {}

  lemma StreamSnoc(h: Headers, groups: seq<seq<Packet>>, g: seq<Packet>, ended: bool)
    ensures Stream(h, groups + [g], ended)
         == Stream(h, groups, false) + LastPage(g, |groups|, |Flatten(groups)|, ended)
  {
    DataPagesSnoc(groups, g, ended);
    AppendInside(HeaderPage(h.head, 0), HeaderPage(h.tags, 1), Flatten(DataPages(groups, false)),
                 LastPage(g, |groups|, |Flatten(groups)|, ended));
  }

  // ----- Reading a recording -----

  /** Whatever follows it, the page reads back as the group it was made of. */
  ghost predicate ReadsAs(page: seq<Byte>, group: seq<Packet>) {
    forall rest :: ReadPage(page + rest) == Found(SegmentTable(group), Payload(group), rest)
  }

  lemma GroupPageReadsAs(group: seq<Packet>, flags: Byte, granule: nat, seqNo: nat)
    requires Fits(group)
    ensures ReadsAs(GroupPage(group, flags, granule, seqNo), group)
  {
    TableCoversPayload(group);
    var head := PageHead(flags, granule, seqNo);
    forall rest ensures ReadPage(GroupPage(group, flags, granule, seqNo) + rest)
                     == Found(SegmentTable(group), Payload(group), rest) {
      PageReadsBack(head, SegmentTable(group), Payload(group), rest);
    }
  }

  lemma LastPageReadsAs(group: seq<Packet>, n: nat, before: nat, ended: bool)
    requires Fits(group)
    ensures ReadsAs(LastPage(group, n, before, ended), group)
  {
    GroupPageReadsAs(group, if ended then EOS else 0, SAMPLES_PER_FRAME * (before + |group|) % U64, (n + 2) % U32);
  }

  lemma {:induction false} DataPagesReadAs(groups: seq<seq<Packet>>, ended: bool)
    requires forall g | g in groups :: Fits(g)
    ensures |DataPages(groups, ended)| == |groups|
    ensures forall i | 0 <= i < |groups| :: ReadsAs(DataPages(groups, ended)[i], groups[i])
  {
    hide ReadsAs, LastPage, Fits;
    if groups != [] {
      var n := |groups| - 1;
      assert groups[n] in groups;
      DataPagesReadAs(groups[..n], false);
      LastPageReadsAs(groups[n], n, |Flatten(groups[..n])|, ended);
    }
  }

  lemma {:induction false} ReadDataPages(pages: seq<seq<Byte>>, groups: seq<seq<Packet>>)
    requires |pages| == |groups| && forall i | 0 <= i < |pages| :: ReadsAs(pages[i], groups[i])
    ensures ReadStream(Flatten(pages), 2) == Packets(NonEmpty(Flatten(groups)))
  {
    if pages != [] {
      var rest := Flatten(pages[1..]);
      assert ReadsAs(pages[0], groups[0]);
      assert forall i | 0 <= i < |pages| - 1 :: pages[1..][i] == pages[i + 1] && groups[1..][i] == groups[i + 1];
      assert ReadPage(pages[0] + rest) == Found(SegmentTable(groups[0]), Payload(groups[0]), rest);
      SplitUndoesLacing(groups[0]);
      ReadDataPages(pages[1..], groups[1..]);
      NonEmptyConcat(groups[0], Flatten(groups[1..]));
    }
  }

  ghost predicate HeadersFit(h: Headers) {
    Fits([h.head]) && Fits([h.tags])
  }

  lemma OpusHeadersFit(h: Headers)
    requires |h.head| == 19 && |h.tags| == 25
    ensures HeadersFit(h)
  {
    TableExactly([h.head], 1);
    TableExactly([h.tags], 1);
  }

  lemma SkipPage(page: seq<Byte>, group: seq<Packet>, rest: seq<Byte>, skipped: nat)
    requires ReadsAs(page, group) && skipped < 2
    ensures ReadStream(page + rest, skipped) == ReadStream(rest, skipped + 1)
  {
    assert ReadPage(page + rest) == Found(SegmentTable(group), Payload(group), rest);
  }

  lemma HeadersAreSkipped(h: Headers, groups: seq<seq<Packet>>, ended: bool)
    requires HeadersFit(h)
    ensures ReadStream(Stream(h, groups, ended), 0) == ReadStream(Flatten(DataPages(groups, ended)), 2)
  {
    hide DataPages, GroupPage, Flatten, ReadsAs;
    var h0, h1, data := HeaderPage(h.head, 0), HeaderPage(h.tags, 1), Flatten(DataPages(groups, ended));
    GroupPageReadsAs([h.head], BOS, 0, 0);
    GroupPageReadsAs([h.tags], 0, 0, 1);
    SkipPage(h0, [h.head], h1 + data, 0);
    SkipPage(h1, [h.tags], data, 1);
  }

  /** Every page of a recording carries its own checksum. */
  lemma {:induction false} ChecksumsHold(groups: seq<seq<Packet>>, ended: bool)
    ensures forall page | page in DataPages(groups, ended) :: ChecksumHolds(page)
  {
    if groups != [] {
      var n := |groups| - 1;
      ChecksumsHold(groups[..n], false);
      GroupChecksumHolds(groups[n], if ended then EOS else 0,
                         SAMPLES_PER_FRAME * (|Flatten(groups[..n])| + |groups[n]|) % U64, (n + 2) % U32);
    }
  }

  lemma GroupChecksumHolds(group: seq<Packet>, flags: Byte, granule: nat, seqNo: nat)
    ensures ChecksumHolds(GroupPage(group, flags, granule, seqNo))
  {
    PageChecksumHolds(PageHead(flags, granule, seqNo), PageTail(SegmentTable(group), Payload(group)));
  }

  lemma HeadFields(flags: Byte, granule: nat, seqNo: nat)
    requires granule < U64 && seqNo < U32
    ensures
      var head := PageHead(flags, granule, seqNo);
      && head[5] == flags && FromLittleEndian(head[6..14]) == granule && FromLittleEndian(head[18..22]) == seqNo
      && head[..5] == [79, 103, 103, 83, 0] && head[14..18] == [0, 0, 0, 0]
  {
    var head := PageHead(flags, granule, seqNo);
    assert head[14..18] == LittleEndian(0, 4);
    assert Pow256(8) == U64 by {
      assert Pow256(4) == U32;
    }
    assert Pow256(4) == U32;
    LittleEndianRoundTrip(granule, 8);
    LittleEndianRoundTrip(seqNo, 4);
    assert head[6..14] == LittleEndian(granule, 8);
    assert head[18..22] == LittleEndian(seqNo, 4);
  }

  /**
   As written in the pages: "OggS" and version 0, stream 0, numbers are consecutive, granule positions count 960 samples for every
   packet so far, and only the last page of a recording that was stopped ends the stream.
   */
  lemma {:induction false} PageFields(groups: seq<seq<Packet>>, ended: bool, i: nat)
    requires i < |groups|
    ensures |DataPages(groups, ended)| == |groups|
    ensures
      var page := DataPages(groups, ended)[i];
      && |page| >= 27
      && FromLittleEndian(page[18..22]) == (i + 2) % 0x1_0000_0000
      && FromLittleEndian(page[6..14]) == 960 * |Flatten(groups[..i + 1])| % 0x1_0000_0000_0000_0000
      && page[5] == (if ended && i == |groups| - 1 then 4 else 0)
      && page[..5] == [79, 103, 103, 83, 0] && page[14..18] == [0, 0, 0, 0]
  {
    hide LastPage;
    var n := |groups| - 1;
    if i < n {
      PageFields(groups[..n], false, i);
      assert groups[..n][..i + 1] == groups[..i + 1];
    } else {
      if n > 0 {
        PageFields(groups[..n], false, 0);
      }
      assert groups[..n] + [groups[n]] == groups[..n + 1];
      FlattenSnoc(groups[..n], groups[n]);
      LastPageFields(groups[n], n, |Flatten(groups[..n])|, ended);
    }
  }

  /** The two pages before them are numbered 0 and 1, are outside the sample count, and the first begins the stream. */
  lemma HeaderPageFields(packet: Packet, n: nat)
    requires n < 2
    ensures
      var page := HeaderPage(packet, n);
      && |page| >= 27
      && FromLittleEndian(page[18..22]) == n && FromLittleEndian(page[6..14]) == 0
      && page[5] == (if n == 0 then 2 else 0)
      && page[..5] == [79, 103, 103, 83, 0] && page[14..18] == [0, 0, 0, 0]
  {
    var head := PageHead(if n == 0 then BOS else 0, 0, n);
    HeadFields(if n == 0 then BOS else 0, 0, n);
    HeadOfPage(head, PageTail(SegmentTable([packet]), Payload([packet])));
  }

  lemma LastPageFields(group: seq<Packet>, n: nat, before: nat, ended: bool)
    ensures
      var page := LastPage(group, n, before, ended);
      && |page| >= HEADER_LEN
      && FromLittleEndian(page[18..22]) == (n + 2) % U32
      && FromLittleEndian(page[6..14]) == SAMPLES_PER_FRAME * (before + |group|) % U64
      && page[5] == (if ended then EOS else 0)
      && page[..5] == [79, 103, 103, 83, 0] && page[14..18] == [0, 0, 0, 0]
  {
    var flags: Byte := if ended then EOS else 0;
    var head := PageHead(flags, SAMPLES_PER_FRAME * (before + |group|) % U64, (n + 2) % U32);
    var page := PageBytes(head, PageTail(SegmentTable(group), Payload(group)));
    HeadFields(flags, SAMPLES_PER_FRAME * (before + |group|) % U64, (n + 2) % U32);
    HeadOfPage(head, PageTail(SegmentTable(group), Payload(group)));
  }

  lemma HeadOfPage(head: seq<Byte>, tail: seq<Byte>)
    requires |head| == 22
    ensures
      var page := PageBytes(head, tail);
      && page[..5] == head[..5] && page[5] == head[5] && page[6..14] == head[6..14]
      && page[14..18] == head[14..18] && page[18..22] == head[18..22]
  {}

  /** Reading a recording whose pages all fit gives back its packets, in order, less empty ones. */
  lemma StreamReadsBack(h: Headers, groups: seq<seq<Packet>>, ended: bool)
    requires HeadersFit(h) && forall g | g in groups :: Fits(g)
    ensures ReadStream(Stream(h, groups, ended), 0) == Packets(NonEmpty(Flatten(groups)))
  {
    HeadersAreSkipped(h, groups, ended);
    DataPagesReadAs(groups, ended);
    ReadDataPages(DataPages(groups, ended), groups);
  }

  /** The exact round trip: every packet comes back if and only if none was empty. */
  lemma StreamRoundTrip(h: Headers, groups: seq<seq<Packet>>, ended: bool)
    requires HeadersFit(h) && forall g | g in groups :: Fits(g)
    ensures ReadStream(Stream(h, groups, ended), 0) == Packets(Flatten(groups)) <==> [] !in Flatten(groups)
  {
    StreamReadsBack(h, groups, ended);
    NonEmptyKeepsAll(Flatten(groups));
  }

  /**
   Outside the bound a recording may not be readable at all: 256 segments are counted as none,
   and the segment table is then taken for the next page.
   */
  lemma OversizeGroupIsLost(h: Headers, group: seq<Packet>)
    requires HeadersFit(h) && |SegmentTable(group)| == 256 && SegmentTable(group)[0] == 255
    ensures ReadStream(Stream(h, [group], true), 0) == Failed(InvalidSignature)
  {
    hide GroupPage;
    var page := LastPage(group, 0, 0, true);
    HeadersAreSkipped(h, [group], true);
    assert [] + [group] == [group];
    DataPagesSnoc([], group, true);
    assert Flatten(DataPages([group], true)) == page;
    LastPageIsLaidOut(group, 0, 0, true);
    UncountedPage(page, SegmentTable(group), Payload(group));
  }

  lemma LastPageIsLaidOut(group: seq<Packet>, n: nat, before: nat, ended: bool)
    ensures LaidOut(LastPage(group, n, before, ended), SegmentTable(group), Payload(group))
  {
    var head := PageHead(if ended then EOS else 0,
                         SAMPLES_PER_FRAME * (before + |group|) % U64, (n + 2) % U32);
    PageIsLaidOut(head, SegmentTable(group), Payload(group));
  }

  lemma UncountedPage(page: seq<Byte>, table: seq<Byte>, payload: seq<Byte>)
    requires LaidOut(page, table, payload) && |table| == 256 && table[0] == 255
    ensures ReadStream(page, 2) == Failed(InvalidSignature)
  {
    var rest := page[HEADER_LEN..];
    assert ReadPage(page) == Found([], [], rest);
    assert rest[0] == page[HEADER_LEN..HEADER_LEN + |table|][0] == 255;
    assert ReadPage(rest) == BadSignature;
  }

  /** For example one packet of 65025 bytes. */
  lemma OversizePacketIsLost(h: Headers, p: Packet)
    requires HeadersFit(h) && |p| == 65025
    ensures ReadStream(Stream(h, [[p]], true), 0) == Failed(InvalidSignature)
  {
    TableExactly([p], 256);
    assert Lacing(|p|)[0] == 255;
    OversizeGroupIsLost(h, [p]);
  }
}
