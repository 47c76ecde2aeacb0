/**
 The call recorder: packets are buffered, and flushed as one Ogg page for every 48 of
 them and for what is left at the end. Its methods run under the recorder's mutex.
 */
module CallRecorder {
  import opened Basics
  import opened Bits
  import opened OggCrc
  import opened OggPage
  import opened OggReader
  import opened OggStream

  /** A file on a disk that may fail: faults says how many bytes each coming write gets through. */
  class Disk {
    var contents: seq<Byte>
    var faults: seq<Option<nat>>

    constructor (faults: seq<Option<nat>>)
      ensures contents == [] && this.faults == faults
    {
      contents := [];
      this.faults := faults;
    }

    method Write(data: seq<Byte>) returns (failed: bool)
      modifies this
      ensures failed <==> old(faults) != [] && old(faults)[0].Some?
      ensures faults == if old(faults) == [] then [] else old(faults)[1..]
      ensures !failed ==> contents == old(contents) + data
      ensures failed ==> contents == old(contents) + data[..Min(old(faults)[0].value, |data|)]
    {
      failed := faults != [] && faults[0].Some?;
      contents := contents + if failed then data[..Min(faults[0].value, |data|)] else data;
      faults := if faults == [] then [] else faults[1..];
    }
  }

  function Min(a: nat, b: nat): nat {
    if a < b then a else b
  }

  /** "OpusHead", version 1, one channel, no pre-skip, 48000 Hz, no gain, mapping family 0 (section 5.1 of RFC 7845). */
  predicate IsOpusHead(p: Packet) {
    p == [79, 112, 117, 115, 72, 101, 97, 100, 1, 1, 0, 0, 0x80, 0xBB, 0, 0, 0, 0, 0]
  }

  /** "OpusTags", vendor "whatomate", no comments (section 5.2 of RFC 7845). */
  predicate IsOpusTags(p: Packet) {
    p == [79, 112, 117, 115, 84, 97, 103, 115, 9, 0, 0, 0, 119, 104, 97, 116, 111, 109, 97, 116, 101, 0, 0, 0, 0]
  }

  method OpusHead() returns (p: Packet)
    ensures IsOpusHead(p) && |p| == 19
  {
    assert LittleEndian(48000, 4) == [0x80, 0xBB, 0, 0] && LittleEndian(0, 2) == [0, 0];
    hide LittleEndian;
    p := [79, 112, 117, 115, 72, 101, 97, 100] + [1, 1] + LittleEndian(0, 2) + LittleEndian(48000, 4) + LittleEndian(0, 2) + [0];
  }

  method OpusTags() returns (p: Packet)
    ensures IsOpusTags(p) && |p| == 25
  {
    hide LittleEndian, IsOpusTags;
    var vendor: seq<Byte> := [119, 104, 97, 116, 111, 109, 97, 116, 101];
    p := [79, 112, 117, 115, 84, 97, 103, 115] + LittleEndian(|vendor|, 4) + vendor + LittleEndian(0, 4);
    TagsAre(LittleEndian(9, 4), vendor, LittleEndian(0, 4));
  }

  lemma TagsAre(size: seq<Byte>, vendor: seq<Byte>, count: seq<Byte>)
    requires size == LittleEndian(9, 4) && count == LittleEndian(0, 4)
    requires vendor == [119, 104, 97, 116, 111, 109, 97, 116, 101]
    ensures var p := [79, 112, 117, 115, 84, 97, 103, 115] + size + vendor + count; IsOpusTags(p) && |p| == 25
  {
    assert size == [9, 0, 0, 0] && count == [0, 0, 0, 0];
    hide LittleEndian;
    assert [79, 112, 117, 115, 84, 97, 103, 115] + size == [79, 112, 117, 115, 84, 97, 103, 115, 9, 0, 0, 0];
    assert vendor + count == [119, 104, 97, 116, 111, 109, 97, 116, 101, 0, 0, 0, 0];
  }

  /** Every page but one that ends the stream holds 48 packets; that one holds some, but fewer. */
  ghost predicate PagesAreFull(flushed: seq<seq<Packet>>, ended: bool) {
    && (forall k | 0 <= k < |flushed| :: if ended && k == |flushed| - 1 then 0 < |flushed[k]| < 48 else |flushed[k]| == 48)
    && (ended ==> flushed != [])
  }

  /** So the number of packets says how many pages there are, and whether one ends the stream. */
  lemma {:induction false} FullPagesCount(flushed: seq<seq<Packet>>, ended: bool)
    requires PagesAreFull(flushed, ended)
    ensures |flushed| == (|Flatten(flushed)| + 47) / 48
    ensures ended <==> |Flatten(flushed)| % 48 != 0
  {
    if flushed != [] {
      var n := |flushed| - 1;
      FullPagesCount(flushed[..n], false);
      assert flushed[..n] + [flushed[n]] == flushed;
      FlattenSnoc(flushed[..n], flushed[n]);
    }
  }

  /** A recorder and its file at one moment, with the history the file answers for. */
  datatype Recording = Recording(
    granulePos: nat, pageSeqNo: nat, packetCount: nat, stopped: bool, writeErr: bool,
    pageBuf: seq<Packet>, pageBufBytes: nat, bytes: seq<Byte>,
    headers: Headers,
    written: seq<Packet>,         // every packet accepted
    flushed: seq<seq<Packet>>,    // the groups that made it into a page
    ended: bool,                  // the last page carries the end-of-stream flag
    recounted: nat                // packets counted in granulePos by writes that failed
  ) {
    /** What holds whether or not the buffer has just been filled. */
    ghost predicate Sound() {
      && Flatten(flushed) + pageBuf == written
      && packetCount == |written|
      && pageBufBytes == |Payload(pageBuf)|
      && pageSeqNo == (|flushed| + 2) % U32
      && granulePos == SAMPLES_PER_FRAME * (|Flatten(flushed)| + recounted) % U64
      && (recounted == 0 <==> !writeErr)
      && HeadersFit(headers)
      && (!writeErr ==> |pageBuf| <= PAGE_PACKETS && bytes == Stream(headers, flushed, ended))
      && (!writeErr ==> PagesAreFull(flushed, ended))
    }

    /** Between calls. */
    ghost predicate AtRest() {
      && Sound()
      && (ended ==> stopped)
      && (!writeErr ==> |pageBuf| < PAGE_PACKETS && (stopped ==> pageBuf == []))
    }

    function Add(p: Packet): Recording {
      this.(pageBuf := pageBuf + [p], pageBufBytes := pageBufBytes + |p|,
            packetCount := packetCount + 1, written := written + [p])
    }

    /** A page for the buffer, after the granule position has moved past it. */
    function Counted(): Recording {
      this.(granulePos := (granulePos + SAMPLES_PER_FRAME * |pageBuf|) % U64)
    }

    function Page(lastPage: bool): seq<Byte> {
      GroupPage(pageBuf, if lastPage then EOS else 0, granulePos, pageSeqNo)
    }

    /** The page was written. */
    function Flushed(lastPage: bool): Recording {
      Counted().(bytes := bytes + Counted().Page(lastPage), pageSeqNo := (pageSeqNo + 1) % U32,
                 flushed := flushed + [pageBuf], ended := lastPage, pageBuf := [], pageBufBytes := 0)
    }

    /** The page was not, or only in part: its packets stay buffered, and stay counted. */
    function Unflushed(after: seq<Byte>): Recording {
      Counted().(bytes := after, writeErr := true, recounted := recounted + |pageBuf|)
    }

    /** The granule position accounts for every packet not still buffered, unless failed writes counted some twice. */
    lemma GranuleAccountsForPackets()
      requires Sound()
      ensures (granulePos + SAMPLES_PER_FRAME * |pageBuf|) % U64 == SAMPLES_PER_FRAME * packetCount % U64
         <==> SAMPLES_PER_FRAME * recounted % U64 == 0
      ensures !writeErr ==> SAMPLES_PER_FRAME * recounted % U64 == 0
      ensures writeErr && SAMPLES_PER_FRAME * recounted < U64 ==> SAMPLES_PER_FRAME * recounted % U64 != 0
    {
      hide Stream, HeadersFit;
      assert packetCount == |Flatten(flushed)| + |pageBuf|;
      GranuleAdvances(|Flatten(flushed)| + recounted, |pageBuf|);
      ShiftedModulo(SAMPLES_PER_FRAME * packetCount, SAMPLES_PER_FRAME * recounted);
    }

    lemma AddKeepsSound(p: Packet)
      requires AtRest() && !stopped
      ensures Add(p).Sound() && !Add(p).ended
      ensures |Add(p).pageBuf| < PAGE_PACKETS ==> Add(p).AtRest()
    {
      hide GroupPage;
      TableSnoc(pageBuf, p);
      assert Flatten(flushed) + (pageBuf + [p]) == Flatten(flushed) + pageBuf + [p];
    }

    lemma FlushKeepsSound(lastPage: bool)
      requires Sound() && !ended && pageBuf != [] && stopped == lastPage
      requires !writeErr ==> (lastPage <==> |pageBuf| < PAGE_PACKETS)
      ensures Flushed(lastPage).AtRest()
    {
      hide GroupPage, Stream, HeadersFit, SegmentTable, Flatten, Payload;
      FlattenSnoc(flushed, pageBuf);
      NothingBuffered([], []);
      assert Flatten(flushed + [pageBuf]) + [] == Flatten(flushed) + pageBuf;
      GranuleAdvances(|Flatten(flushed)| + recounted, |pageBuf|);
      PageNumberAdvances(|flushed| + 2);
      if !writeErr {
        StreamSnoc(headers, flushed, pageBuf, lastPage);
      }
    }

    lemma StopKeepsSound()
      requires AtRest()
      ensures this.(stopped := true).Sound() && (pageBuf == [] ==> this.(stopped := true).AtRest())
      ensures stopped && !writeErr ==>
        Flatten(flushed) == written && bytes == Stream(headers, flushed, ended)
        && HeadersFit(headers) && PagesAreFull(flushed, ended)
      ensures !stopped ==> !ended && (!writeErr ==> |pageBuf| < PAGE_PACKETS)
    {
      hide Stream, HeadersFit, PagesAreFull;
      assert Flatten(flushed) + [] == Flatten(flushed);
    }

    lemma FailureKeepsSound(after: seq<Byte>)
      requires Sound() && !ended && pageBuf != []
      ensures Unflushed(after).AtRest()
    {
      hide GroupPage;
      GranuleAdvances(|Flatten(flushed)| + recounted, |pageBuf|);
    }
  }

  class CallRecorder {
    const file: Disk
    const crcTable: array<Word>
    var granulePos: nat    // 64 bits
    var pageSeqNo: nat     // 32 bits
    var packetCount: nat
    var stopped: bool
    var writeErr: bool     // sticky
    var pageBuf: seq<Packet>
    var pageBufBytes: nat

    ghost var headers: Headers
    ghost var written: seq<Packet>
    ghost var flushed: seq<seq<Packet>>
    ghost var ended: bool
    ghost var recounted: nat

    ghost function State(): Recording
      reads this, file
    {
      Recording(granulePos, pageSeqNo, packetCount, stopped, writeErr, pageBuf, pageBufBytes, file.contents,
                headers, written, flushed, ended, recounted)
    }

    ghost predicate Valid()
      reads this, file, crcTable
    {
      IsTable(crcTable[..]) && State().AtRest()
    }

    constructor (file: Disk, crcTable: array<Word>)
      ensures this.file == file && this.crcTable == crcTable
      ensures State() == Recording(0, 0, 0, false, false, [], 0, file.contents, Headers([], []), [], [], false, 0)
    {
      this.file := file;
      this.crcTable := crcTable;
      granulePos, pageSeqNo, packetCount, stopped, writeErr := 0, 0, 0, false, false;
      pageBuf, pageBufBytes := [], 0;
      headers := Headers([], []);
      written, flushed, ended, recounted := [], [], false, 0;
    }

    /** A recorder on an empty file, or null when a header could not be written. */
    static method Open(file: Disk) returns (r: CallRecorder?)
      requires file.contents == []
      modifies file
      ensures r != null ==> fresh(r) && fresh(r.crcTable) && r.file == file
      ensures r != null ==> r.Valid() && r.written == [] && !r.stopped && !r.writeErr
      ensures r != null ==> IsOpusHead(r.headers.head) && IsOpusTags(r.headers.tags)
      ensures r == null <==> exists k | 0 <= k < 2 && k < |old(file.faults)| :: old(file.faults)[k].Some?
    {
      hide GroupPage, HeaderPage, Recording.Sound, Recording.AtRest, IsOpusHead, IsOpusTags, IsTable;
      var table := InitTable();
      r := new CallRecorder(file, table);
      var head := OpusHead();
      var tags := OpusTags();
      var failed := r.WriteHeaders(head, tags);
      if failed {
        return null;
      }
      r.headers := Headers(head, tags);
      FreshIsAtRest(r.State());
    }

    method WriteHeaders(head: Packet, tags: Packet) returns (failed: bool)
      requires IsTable(crcTable[..]) && pageSeqNo == 0
      modifies this`pageSeqNo, file
      ensures failed <==> exists k | 0 <= k < 2 && k < |old(file.faults)| :: old(file.faults)[k].Some?
      ensures !failed ==> pageSeqNo == 2 && file.contents == old(file.contents) + HeaderPage(head, 0) + HeaderPage(tags, 1)
    {
      hide GroupPage, HeaderPage, IsTable;
      HeaderPageIs(head, 0);
      HeaderPageIs(tags, 1);
      failed := WritePage(head, true);
      if failed {
        assert old(file.faults)[0].Some?;
        return;
      }
      failed := WritePage(tags, false);
      if failed {
        assert old(file.faults)[1].Some?;
      }
    }

    method WritePage(payload: seq<Byte>, bos: bool) returns (failed: bool)
      requires IsTable(crcTable[..]) && pageSeqNo < U32
      modifies this`pageSeqNo, file
      ensures failed <==> old(file.faults) != [] && old(file.faults)[0].Some?
      ensures file.faults == if old(file.faults) == [] then [] else old(file.faults)[1..]
      ensures pageSeqNo == if failed then old(pageSeqNo) else (old(pageSeqNo) + 1) % U32
      ensures !failed ==>
        file.contents == old(file.contents) + GroupPage([payload], if bos then BOS else 0, 0, old(pageSeqNo))
    {
      var segTable := Lace(|payload|, []);
      TableOfOne(payload);
      var page := BuildGroupPage(crcTable, [payload], segTable, payload, if bos then BOS else 0, 0, pageSeqNo);
      failed := file.Write(page);
      if !failed {
        pageSeqNo := (pageSeqNo + 1) % U32;
      }
    }

    method WritePacket(opusData: seq<Byte>)
      requires Valid()
      modifies this, file
      ensures Valid()
      ensures stopped == old(stopped) && headers == old(headers)
      ensures written == if old(stopped) then old(written) else old(written) + [opusData]
      ensures !stopped && !writeErr && |old(pageBuf)| < 47 ==>
        pageBuf == old(pageBuf) + [opusData] && flushed == old(flushed) && file.contents == old(file.contents)
      ensures !stopped && !writeErr && |old(pageBuf)| == 47 ==>
        pageBuf == [] && flushed == old(flushed) + [old(pageBuf) + [opusData]]
      ensures old(stopped) ==> State() == old(State())
      ensures writeErr ==> old(writeErr) || (old(file.faults) != [] && old(file.faults)[0].Some?)
    {
      hide GroupPage, Recording.Sound, Recording.AtRest, IsTable;
      if stopped {
        return;
      }
      State().AddKeepsSound(opusData);
      pageBuf := pageBuf + [opusData];
      pageBufBytes := pageBufBytes + |opusData|;
      packetCount := packetCount + 1;
      written := written + [opusData];
      assert State() == old(State()).Add(opusData);
      if |pageBuf| >= PAGE_PACKETS {
        FlushPage(false);
      }
    }

    method FlushPage(lastPage: bool)
      requires IsTable(crcTable[..]) && State().Sound() && !ended && pageBuf != [] && stopped == lastPage
      requires !writeErr ==> (lastPage <==> |pageBuf| < PAGE_PACKETS)
      modifies this, file
      ensures Valid()
      ensures written == old(written) && stopped == old(stopped) && headers == old(headers)
      ensures
        if old(file.faults) != [] && old(file.faults)[0].Some? then State() == old(State()).Unflushed(file.contents)
        else State() == old(State()).Flushed(lastPage)
      ensures granulePos == (old(granulePos) + 960 * |old(pageBuf)|) % 0x1_0000_0000_0000_0000
      ensures
        if old(file.faults) != [] && old(file.faults)[0].Some? then
          && writeErr && pageBuf == old(pageBuf) && flushed == old(flushed) && ended == old(ended)
          && var page := GroupPage(old(pageBuf), if lastPage then 4 else 0, granulePos, old(pageSeqNo));
             file.contents == old(file.contents) + page[..Min(old(file.faults)[0].value, |page|)]
        else
          && writeErr == old(writeErr) && pageBuf == [] && flushed == old(flushed) + [old(pageBuf)] && ended == lastPage
          && file.contents == old(file.contents) + GroupPage(old(pageBuf), if lastPage then 4 else 0, granulePos, old(pageSeqNo))
    {
      hide GroupPage, Recording.Sound, Recording.AtRest, SegmentTable, Payload;
      ghost var before := State();
      var failed := WriteBuffered(lastPage);
      if failed {
        writeErr := true;
        recounted := recounted + |pageBuf|;
        before.FailureKeepsSound(file.contents);
        return;
      }
      pageSeqNo := (pageSeqNo + 1) % U32;
      flushed := flushed + [pageBuf];
      ended := lastPage;
      pageBuf := [];
      pageBufBytes := 0;
      before.FlushKeepsSound(lastPage);
    }

    /** The page of the buffered packets, counted in granulePos before it is known to be written. */
    method WriteBuffered(lastPage: bool) returns (failed: bool)
      requires IsTable(crcTable[..])
      modifies this`granulePos, file
      ensures granulePos == old(State()).Counted().granulePos
      ensures failed <==> old(file.faults) != [] && old(file.faults)[0].Some?
      ensures
        var page := old(State()).Counted().Page(lastPage);
        file.contents == old(file.contents) + if failed then page[..Min(old(file.faults)[0].value, |page|)] else page
    {
      hide GroupPage, SegmentTable, Payload;
      var segTable, payload := LaceAll(pageBuf);
      granulePos := (granulePos + SAMPLES_PER_FRAME * |pageBuf|) % U64;
      var page := BuildGroupPage(crcTable, pageBuf, segTable, payload, if lastPage then EOS else 0, granulePos, pageSeqNo);
      failed := file.Write(page);
    }

    method Stop() returns (count: nat, failed: bool)
      requires Valid()
      modifies this, file
      ensures Valid() && stopped && written == old(written) && headers == old(headers)
      ensures count == packetCount && failed == writeErr
      ensures !failed ==> Flatten(flushed) == written && file.contents == Stream(headers, flushed, ended)
      ensures !failed ==> PagesAreFull(flushed, ended) && |flushed| == (|written| + 47) / 48 && (ended <==> |written| % 48 != 0)
      ensures !failed && (forall g | g in flushed :: Fits(g)) ==>
        && ReadStream(file.contents, 0) == Packets(NonEmpty(written))
        && (ReadStream(file.contents, 0) == Packets(written) <==> [] !in written)
      ensures !failed && (forall p | p in written :: |p| <= 1274) ==>
        ReadStream(file.contents, 0) == Packets(NonEmpty(written))
      ensures old(stopped) ==> State() == old(State())
    {
      hide Recording.Sound, Recording.AtRest, Stream, HeadersFit, Fits, NonEmpty, ReadStream, PagesAreFull, Flatten;
      State().StopKeepsSound();
      if !stopped {
        stopped := true;
        if |pageBuf| > 0 {
          FlushPage(true);
        }
      }
      count, failed := packetCount, writeErr;
      State().StopKeepsSound();
      if !writeErr {
        FullPagesCount(flushed, ended);
        FinishedReadsBack(headers, flushed, ended);
      }
    }
  }

  lemma FreshIsAtRest(r: Recording)
    requires |r.headers.head| == 19 && |r.headers.tags| == 25
    requires r.bytes == HeaderPage(r.headers.head, 0) + HeaderPage(r.headers.tags, 1)
    requires r == Recording(0, 2, 0, false, false, [], 0, r.bytes, r.headers, [], [], false, 0)
    ensures r.AtRest()
  {
    OpusHeadersFit(r.headers);
    HeadersOnly(r.headers);
    hide HeadersFit, Stream, HeaderPage;
    NothingBuffered(r.flushed, r.pageBuf);
    hide Flatten, Payload;
    assert 2 % U32 == 2 && 0 % U64 == 0;
  }

  lemma NothingBuffered(flushed: seq<seq<Packet>>, pageBuf: seq<Packet>)
    requires flushed == [] && pageBuf == []
    ensures Flatten(flushed) + pageBuf == [] && |Flatten(flushed)| == 0 && |Payload(pageBuf)| == 0
  {}

  lemma HeaderPageIs(packet: Packet, n: nat)
    ensures HeaderPage(packet, n) == GroupPage([packet], if n == 0 then BOS else 0, 0, n)
  {}

  lemma FinishedReadsBack(h: Headers, groups: seq<seq<Packet>>, ended: bool)
    requires HeadersFit(h) && PagesAreFull(groups, ended)
    ensures
      var read, all := ReadStream(Stream(h, groups, ended), 0), Flatten(groups);
      && ((forall g | g in groups :: Fits(g)) ==> read == Packets(NonEmpty(all)))
      && ((forall g | g in groups :: Fits(g)) ==> (read == Packets(all) <==> [] !in all))
      && ((forall p | p in all :: |p| <= 1274) ==> read == Packets(NonEmpty(all)))
  {
    if forall p | p in Flatten(groups) :: |p| <= 1274 {
      SmallGroupsFit(groups);
    }
    if forall g | g in groups :: Fits(g) {
      StreamReadsBack(h, groups, ended);
      StreamRoundTrip(h, groups, ended);
    }
  }

  lemma TableOfOne(p: Packet)
    ensures SegmentTable([p]) == Lacing(|p|) && Payload([p]) == p
  {
    hide Lacing;
    var none: seq<Packet> := [];
    assert [p][1..] == none;
    assert SegmentTable(none) == [] && Payload(none) == [];
  }

  lemma GranuleAdvances(a: nat, b: nat)
    ensures (SAMPLES_PER_FRAME * a % U64 + SAMPLES_PER_FRAME * b) % U64 == SAMPLES_PER_FRAME * (a + b) % U64
  {}

  lemma ShiftedModulo(a: nat, b: nat)
    ensures (a + b) % U64 == a % U64 <==> b % U64 == 0
  {}

  lemma PageNumberAdvances(a: nat)
    ensures (a % U32 + 1) % U32 == (a + 1) % U32
  {}

  lemma HeadersOnly(h: Headers)
    ensures Stream(h, [], false) == HeaderPage(h.head, 0) + HeaderPage(h.tags, 1)
  {}

  lemma {:induction false} SmallGroupsFit(groups: seq<seq<Packet>>)
    requires forall g | g in groups :: |g| <= PAGE_PACKETS
    requires forall p | p in Flatten(groups) :: |p| <= 1274
    ensures forall g | g in groups :: Fits(g)
  {
    if groups != [] {
      assert groups == [groups[0]] + groups[1..];
      assert forall p | p in groups[0] :: p in Flatten(groups);
      SmallPacketsFit(groups[0]);
      SmallGroupsFit(groups[1..]);
    }
  }
}
