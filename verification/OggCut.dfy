/** What the reader makes of a recording whose last write was cut short, and of data that is no recording. */
module OggCut {
  import opened Bits
  import opened OggPage
  import opened OggReader
  import opened OggStream

  /** The reader looks at the next page in this order, and stops at the first thing that is wrong. */
  lemma NextPageDecides(data: seq<Byte>, skipped: nat)
    ensures |data| < 27 ==> ReadStream(data, skipped) == Packets([])
    ensures |data| >= 27 && data[..4] != [79, 103, 103, 83] ==> ReadStream(data, skipped) == Failed(InvalidSignature)
    ensures |data| >= 27 && data[..4] == [79, 103, 103, 83] ==>
      var count: nat := data[26];
      && (|data| < 27 + count ==> ReadStream(data, skipped) == Failed(SegmentTableCut))
      && (|data| >= 27 + count ==>
            var table, body := data[27..27 + count], 27 + count + Sum(data[27..27 + count]);
            if |data| < body then ReadStream(data, skipped) == Failed(PayloadCut)
            else if skipped < 2 then ReadStream(data, skipped) == ReadStream(data[body..], skipped + 1)
            else ReadStream(data, skipped) == Prepend(Split(table, data[27 + count..body], []), ReadStream(data[body..], 2)))
  {
    hide Split, Sum;
  }

  /** Data pages that are followed by anything. */
  lemma {:induction false} ReadPagesBefore(pages: seq<seq<Byte>>, groups: seq<seq<Packet>>, tail: seq<Byte>)
    requires |pages| == |groups| && forall i | 0 <= i < |pages| :: ReadsAs(pages[i], groups[i])
    ensures ReadStream(Flatten(pages) + tail, 2) == Prepend(NonEmpty(Flatten(groups)), ReadStream(tail, 2))
  {
    hide ReadStream, ReadsAs, ReadPage;
    if pages == [] {
      assert Flatten(pages) + tail == tail && NonEmpty(Flatten(groups)) == [];
      NothingBefore(ReadStream(tail, 2));
    } else {
      var rest := Flatten(pages[1..]) + tail;
      assert forall i | 0 <= i < |pages| - 1 :: pages[1..][i] == pages[i + 1] && groups[1..][i] == groups[i + 1];
      ReadPagesBefore(pages[1..], groups[1..], tail);
      assert Flatten(pages) + tail == pages[0] + rest;
      ReadOnePage(pages[0], groups[0], rest);
      NonEmptyConcat(groups[0], Flatten(groups[1..]));
      PrependBoth(NonEmpty(groups[0]), NonEmpty(Flatten(groups[1..])), ReadStream(tail, 2));
    }
  }

  lemma NothingBefore(r: ReadResult)
    ensures Prepend([], r) == r
  {
    if r.Packets? {
      assert [] + r.packets == r.packets;
    }
  }

  lemma PrependBoth(a: seq<Packet>, b: seq<Packet>, r: ReadResult)
    ensures Prepend(a, Prepend(b, r)) == Prepend(a + b, r)
  {
    if r.Packets? {
      assert a + (b + r.packets) == a + b + r.packets;
    }
  }

  lemma ReadOnePage(page: seq<Byte>, group: seq<Packet>, rest: seq<Byte>)
    requires ReadsAs(page, group)
    ensures ReadStream(page + rest, 2) == Prepend(NonEmpty(group), ReadStream(rest, 2))
  {
    assert ReadPage(page + rest) == Found(SegmentTable(group), Payload(group), rest);
    SplitUndoesLacing(group);
    hide ReadPage, Split, SegmentTable, Payload, NonEmpty;
  }

  lemma HeadersBefore(h: Headers, groups: seq<seq<Packet>>, ended: bool, tail: seq<Byte>)
    requires HeadersFit(h)
    ensures ReadStream(Stream(h, groups, ended) + tail, 0) == ReadStream(Flatten(DataPages(groups, ended)) + tail, 2)
  {
    hide DataPages, GroupPage, Flatten, ReadsAs, ReadStream;
    var h0, h1, data := HeaderPage(h.head, 0), HeaderPage(h.tags, 1), Flatten(DataPages(groups, ended)) + tail;
    GroupPageReadsAs([h.head], BOS, 0, 0);
    GroupPageReadsAs([h.tags], 0, 0, 1);
    assert Stream(h, groups, ended) + tail == h0 + (h1 + data);
    SkipPage(h0, [h.head], h1 + data, 0);
    SkipPage(h1, [h.tags], data, 1);
  }

  /** A recording followed by anything reads as its packets, and then as what follows does. */
  lemma RecordingBefore(h: Headers, groups: seq<seq<Packet>>, ended: bool, tail: seq<Byte>)
    requires HeadersFit(h) && forall g | g in groups :: Fits(g)
    ensures ReadStream(Stream(h, groups, ended) + tail, 0) == Prepend(NonEmpty(Flatten(groups)), ReadStream(tail, 2))
  {
    HeadersBefore(h, groups, ended, tail);
    DataPagesReadAs(groups, ended);
    ReadPagesBefore(DataPages(groups, ended), groups, tail);
  }

  /** The first bytes of a page. */
  lemma CutPage(page: seq<Byte>, table: seq<Byte>, payload: seq<Byte>, cut: nat)
    requires LaidOut(page, table, payload) && Sum(table) == |payload| && |table| <= 255 && cut < |page|
    ensures ReadPage(page[..cut]) == if cut < 27 then NoPage else if cut < 27 + |table| then ShortTable else ShortPayload
  {
    hide Sum;
    var data := page[..cut];
    if cut >= 27 {
      assert data[..4] == page[..4] && data[26] == page[26];
      if cut >= 27 + |table| {
        assert data[27..27 + |table|] == page[27..27 + |table|];
      }
    }
  }

  lemma ReadsNoPage(data: seq<Byte>)
    ensures ReadPage(data).NoPage? ==> ReadStream(data, 2) == Packets([])
    ensures ReadPage(data).ShortTable? ==> ReadStream(data, 2) == Failed(SegmentTableCut)
    ensures ReadPage(data).ShortPayload? ==> ReadStream(data, 2) == Failed(PayloadCut)
  {
    hide ReadPage, Split;
  }

  lemma GroupIsLaidOut(group: seq<Packet>, flags: Byte, granule: nat, seqNo: nat)
    ensures LaidOut(GroupPage(group, flags, granule, seqNo), SegmentTable(group), Payload(group))
  {
    PageIsLaidOut(PageHead(flags, granule, seqNo), SegmentTable(group), Payload(group));
  }

  /**
   A recording whose last write got no further than some bytes of its page: it reads as the packets of the
   pages before if fewer than 27 of those bytes were written, the length of a page's header, and cannot be
   read at all if there are more, short of the whole page.
   */
  lemma CutRecordingReadsAs(h: Headers, groups: seq<seq<Packet>>, group: seq<Packet>, flags: Byte, granule: nat, seqNo: nat, cut: nat)
    requires HeadersFit(h) && Fits(group) && forall g | g in groups :: Fits(g)
    requires cut < |GroupPage(group, flags, granule, seqNo)|
    ensures
      ReadStream(Stream(h, groups, false) + GroupPage(group, flags, granule, seqNo)[..cut], 0) ==
        if cut < 27 then Packets(NonEmpty(Flatten(groups)))
        else Failed(if cut < 27 + |SegmentTable(group)| then SegmentTableCut else PayloadCut)
  {
    var page := GroupPage(group, flags, granule, seqNo);
    RecordingBefore(h, groups, false, page[..cut]);
    GroupIsLaidOut(group, flags, granule, seqNo);
    TableCoversPayload(group);
    CutPage(page, SegmentTable(group), Payload(group), cut);
    ReadsNoPage(page[..cut]);
    hide ReadStream, ReadPage, Stream, GroupPage, NonEmpty, SegmentTable, Payload, Flatten;
    assert NonEmpty(Flatten(groups)) + [] == NonEmpty(Flatten(groups));
  }
}
