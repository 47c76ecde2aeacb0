/** The reader of recorded files: pages in, Opus packets out. */
module OggReader {
  import opened Bits
  import opened OggPage

  datatype ReadError = InvalidSignature | SegmentTableCut | PayloadCut
  datatype ReadResult = Packets(packets: seq<Packet>) | Failed(error: ReadError)

  function Kept(p: Packet): seq<Packet> {
    if p == [] then [] else [p]
  }

  /** A page's payload, cut where a segment shorter than 255 bytes ends a packet. */
  function Split(table: seq<Byte>, payload: seq<Byte>, current: Packet): seq<Packet>
    decreases table
  {
    if table == [] || table[0] > |payload| then Kept(current)
    else
      var longer := current + payload[..table[0]];
      if table[0] < 255 then Kept(longer) + Split(table[1..], payload[table[0]..], [])
      else Split(table[1..], payload[table[0]..], longer)
  }

  /** What is read from data, the first two pages being skipped as headers. */
  function ReadStream(data: seq<Byte>, headersSkipped: nat): ReadResult
    decreases |data|
  {
    match ReadPage(data)
    case NoPage => Packets([])
    case BadSignature => Failed(InvalidSignature)
    case ShortTable => Failed(SegmentTableCut)
    case ShortPayload => Failed(PayloadCut)
    case Found(table, payload, rest) =>
      if headersSkipped < 2 then ReadStream(rest, headersSkipped + 1)
      else
        match ReadStream(rest, 2)
        case Failed(e) => Failed(e)
        case Packets(later) => Packets(Split(table, payload, []) + later)
  }

  function Prepend(before: seq<Packet>, r: ReadResult): ReadResult {
    match r
    case Failed(e) => Failed(e)
    case Packets(later) => Packets(before + later)
  }

  /** A segment whose bytes are there goes to the current packet, and ends it if it is short. */
  lemma SplitStep(table: seq<Byte>, payload: seq<Byte>, i: nat, offset: nat, current: Packet)
    requires i < |table| && offset + table[i] <= |payload|
    ensures
      var longer := current + payload[offset..offset + table[i]];
      Split(table[i..], payload[offset..], current) ==
        if table[i] < 255 then Kept(longer) + Split(table[i + 1..], payload[offset + table[i]..], [])
        else Split(table[i + 1..], payload[offset + table[i]..], longer)
  {
    var t, p, size := table[i..], payload[offset..], table[i];
    assert t[0] == size && t[1..] == table[i + 1..];
    assert p[..size] == payload[offset..offset + size] && p[size..] == payload[offset + size..];
  }

  /** The packets so far, and what is still to come, after one more segment. */
  lemma SplitNext(table: seq<Byte>, payload: seq<Byte>, i: nat, offset: nat, current: Packet, packets: seq<Packet>)
    requires i < |table| && offset + table[i] <= |payload|
    ensures
      var longer := current + payload[offset..offset + table[i]];
      var ends := table[i] < 255;
      packets + Split(table[i..], payload[offset..], current) ==
        (if ends && |longer| > 0 then packets + [longer] else packets)
        + Split(table[i + 1..], payload[offset + table[i]..], if ends then [] else longer)
  {
    SplitStep(table, payload, i, offset, current);
    var longer := current + payload[offset..offset + table[i]];
    var rest := Split(table[i + 1..], payload[offset + table[i]..], if table[i] < 255 then [] else longer);
    hide Split;
    if table[i] < 255 {
      assert packets + (Kept(longer) + rest) == (packets + Kept(longer)) + rest;
      assert packets + [] == packets;
    }
  }

  method SplitPage(table: seq<Byte>, payload: seq<Byte>) returns (packets: seq<Packet>)
    ensures packets == Split(table, payload, [])
  {
    packets := [];
    var offset := 0;
    var currentPacket := [];
    var i := 0;
    assert table[0..] == table && payload[0..] == payload;
    while i < |table|
      invariant 0 <= i <= |table| && 0 <= offset <= |payload|
      invariant packets + Split(table[i..], payload[offset..], currentPacket) == Split(table, payload, [])
    {
      var size: nat := table[i];
      if offset + size > |payload| {
        break;
      }
      SplitNext(table, payload, i, offset, currentPacket, packets);
      hide Split;
      currentPacket := currentPacket + payload[offset..offset + size];
      offset := offset + size;
      if size < 255 {
        if |currentPacket| > 0 {
          packets := packets + [currentPacket];
        }
        currentPacket := [];
      }
      i := i + 1;
    }
    if |currentPacket| > 0 {
      packets := packets + [currentPacket];
    }
  }

  /** A page that is found is skipped as a header, or its packets come before those of the rest. */
  lemma ReadStep(data: seq<Byte>, packets: seq<Packet>, rest: seq<Byte>, headersSkipped: nat)
    requires ReadPage(rest).Found? && headersSkipped <= 2
    requires Prepend(packets, ReadStream(rest, headersSkipped)) == ReadStream(data, 0)
    ensures
      var page := ReadPage(rest);
      ReadStream(data, 0) ==
        if headersSkipped < 2 then Prepend(packets, ReadStream(page.rest, headersSkipped + 1))
        else Prepend(packets + Split(page.table, page.payload, []), ReadStream(page.rest, 2))
  {
    hide ReadPage, Split;
  }

  method ReadOpusPackets(data: seq<Byte>) returns (r: ReadResult)
    ensures r == ReadStream(data, 0)
  {
    var packets: seq<Packet> := [];
    var headersSkipped := 0;
    var rest := data;
    while |rest| >= HEADER_LEN
      invariant headersSkipped <= 2 && (headersSkipped < 2 ==> packets == [])
      invariant Prepend(packets, ReadStream(rest, headersSkipped)) == ReadStream(data, 0)
      decreases |rest|
    {
      var header := rest[..HEADER_LEN];
      if header[0..4] != CAPTURE {
        assert ReadPage(rest) == BadSignature;
        return Failed(InvalidSignature);
      }
      var segmentsCount: nat := header[26];
      var body := HEADER_LEN + segmentsCount;
      if |rest| < body {
        assert ReadPage(rest) == ShortTable;
        return Failed(SegmentTableCut);
      }
      var segTable := rest[HEADER_LEN..body];
      var payloadSize: nat := 0;
      for i := 0 to segmentsCount
        invariant payloadSize == Sum(segTable[..i])
      {
        assert segTable[..i + 1] == segTable[..i] + [segTable[i]];
        SumConcat(segTable[..i], [segTable[i]]);
        payloadSize := payloadSize + segTable[i];
      }
      assert segTable[..segmentsCount] == segTable;
      if |rest| < body + payloadSize {
        assert ReadPage(rest) == ShortPayload;
        return Failed(PayloadCut);
      }
      var payload := rest[body..body + payloadSize];
      assert ReadPage(rest) == Found(segTable, payload, rest[body + payloadSize..]);
      ReadStep(data, packets, rest, headersSkipped);
      hide ReadStream, ReadPage, Split, Prepend;
      rest := rest[body + payloadSize..];
      if headersSkipped < 2 {
        headersSkipped := headersSkipped + 1;
      } else {
        var found := SplitPage(segTable, payload);
        packets := packets + found;
      }
    }
    r := Packets(packets);
  }

  // ----- Reading back what was written -----

  function NonEmpty(packets: seq<Packet>): seq<Packet> {
    if packets == [] then [] else Kept(packets[0]) + NonEmpty(packets[1..])
  }

  lemma {:induction false} NonEmptyConcat(a: seq<Packet>, b: seq<Packet>)
    ensures NonEmpty(a + b) == NonEmpty(a) + NonEmpty(b)
  {
    if a == [] {
      assert a + b == b;
    } else {
      assert (a + b)[1..] == a[1..] + b;
      NonEmptyConcat(a[1..], b);
    }
  }

  lemma {:induction false} NonEmptyKeepsAll(packets: seq<Packet>)
    ensures NonEmpty(packets) == packets <==> [] !in packets
  {
    if packets != [] {
      NonEmptyKeepsAll(packets[1..]);
      NonEmptyLength(packets[1..]);
      assert packets == [packets[0]] + packets[1..];
    }
  }

  lemma {:induction false} NonEmptyLength(packets: seq<Packet>)
    ensures |NonEmpty(packets)| <= |packets|
  {
    if packets != [] {
      NonEmptyLength(packets[1..]);
    }
  }

  lemma {:induction false} SplitLaced(p: Packet, current: Packet, table: seq<Byte>, payload: seq<Byte>)
    ensures Split(Lacing(|p|) + table, p + payload, current) == Kept(current + p) + Split(table, payload, [])
    decreases |p|
  {
    var t, d := Lacing(|p|) + table, p + payload;
    if |p| < 255 {
      assert t[1..] == table && d[|p|..] == payload && d[..|p|] == p;
    } else {
      assert t[1..] == Lacing(|p| - 255) + table && d[255..] == p[255..] + payload && d[..255] == p[..255];
      SplitLaced(p[255..], current + p[..255], table, payload);
      assert current + p[..255] + p[255..] == current + p;
    }
  }

  lemma {:induction false} SplitUndoesLacing(packets: seq<Packet>)
    ensures Split(SegmentTable(packets), Payload(packets), []) == NonEmpty(packets)
  {
    if packets != [] {
      SplitLaced(packets[0], [], SegmentTable(packets[1..]), Payload(packets[1..]));
      SplitUndoesLacing(packets[1..]);
      assert [] + packets[0] == packets[0];
    }
  }
}
