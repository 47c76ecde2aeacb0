/**
 The numbers of the RTP packets a caller hears, across handovers between hold music and agents
 (section 5.1 of RFC 3550; serial order as in section 3 of RFC 1982).
 */
module Rtp {
  type U16 = x: int | 0 <= x < 0x1_0000
  type U32 = x: int | 0 <= x < 0x1_0000_0000

  datatype Packet = Packet(seqNo: U16, ts: U32)

  function Mod(x: int, m: int): (r: int)
    requires m > 0
    ensures 0 <= r < m
  {
    x % m
  }

  function Add16(a: U16, n: int): U16 {
    Mod(a + n, 0x1_0000)
  }

  function Add32(a: U32, n: int): U32 {
    Mod(a + n, 0x1_0000_0000)
  }

  /** How far b is after a, around the circle. */
  function Gap16(a: U16, b: U16): U16 {
    Mod(b - a, 0x1_0000)
  }

  function Gap32(a: U32, b: U32): U32 {
    Mod(b - a, 0x1_0000_0000)
  }

  predicate After(a: Packet, b: Packet) {
    0 < Gap16(a.seqNo, b.seqNo) < 0x8000
  }

  /** Each packet comes after the one before it. */
  ghost predicate InOrder(s: seq<Packet>) {
    forall j, k | 0 <= j < k < |s| && k == j + 1 :: After(s[j], s[k])
  }

  const FRAME := 960

  // ----- Arithmetic around the circle -----

  lemma ModWraps(x: int, q: int, m: int)
    requires m > 0
    ensures (x + q * m) % m == x % m
  {
    var r, d := x % m, x / m;
    assert x == d * m + r;
    assert x + q * m == (d + q) * m + r;
    ModIsUnique(x + q * m, d + q, r, m);
  }

  lemma AtLeast(k: int, m: int)
    requires k >= 1 && m > 0
    ensures k * m >= m
  {
    assert k * m == (k - 1) * m + m;
  }

  lemma ModIsUnique(x: int, d: int, r: int, m: int)
    requires m > 0 && x == d * m + r && 0 <= r < m
    ensures x % m == r
  {
    var d', r' := x / m, x % m;
    var k := d - d';
    assert k * m == d * m - d' * m;
    assert x == d' * m + r' && (-k) * m == -(k * m);
    if k >= 1 {
      AtLeast(k, m);
    } else if k <= -1 {
      AtLeast(-k, m);
    }
  }

  lemma GapOfShift(a: int, x: int, y: int, m: int)
    requires m > 0
    ensures ((a + y) % m - (a + x) % m) % m == (y - x) % m
  {
    var p, q := (a + y) / m, (a + x) / m;
    assert (a + y) % m == a + y - p * m && (a + x) % m == a + x - q * m;
    assert (a + y) % m - (a + x) % m == (y - x) + (q - p) * m;
    ModWraps(y - x, q - p, m);
  }

  lemma ShiftOfMod(a: int, x: int, m: int)
    requires m > 0
    ensures (a + x % m) % m == (a + x) % m
  {
    assert x % m == x - (x / m) * m;
    assert a + x % m == (a + x) + (-(x / m)) * m by { assert (-(x / m)) * m == -((x / m) * m); }
    ModWraps(a + x, -(x / m), m);
  }

  lemma ModOfShift(a: int, x: int, m: int)
    requires m > 0
    ensures Mod(a + Mod(x, m), m) == Mod(a + x, m)
  {
    ShiftOfMod(a, x, m);
  }

  lemma ModOfGap(a: int, x: int, y: int, m: int)
    requires m > 0
    ensures Mod(Mod(a + y, m) - Mod(a + x, m), m) == Mod(y - x, m)
  {
    GapOfShift(a, x, y, m);
  }

  lemma GapOfSums(a: U16, ts: U32, i: int, j: int)
    ensures Gap16(Add16(a, i), Add16(a, j)) == Mod(j - i, 0x1_0000)
    ensures Gap32(Add32(ts, FRAME * i), Add32(ts, FRAME * j)) == Mod(FRAME * j - FRAME * i, 0x1_0000_0000)
  {
    hide Mod;
    ModOfGap(a, i, j, 0x1_0000);
    ModOfGap(ts, FRAME * i, FRAME * j, 0x1_0000_0000);
  }

  lemma OneMore(a: U16, ts: U32, k: nat)
    ensures Add16(Add16(a, k), 1) == Add16(a, k + 1)
    ensures Add32(Add32(ts, FRAME * k), FRAME) == Add32(ts, FRAME * (k + 1))
  {
    hide Mod;
    ModOfShift(1, a + k, 0x1_0000);
    ModOfShift(FRAME, ts + FRAME * k, 0x1_0000_0000);
  }

  // ----- The player -----

  function PlayerRun(seqNo: U16, ts: U32, n: nat): (s: seq<Packet>)
    ensures |s| == n && forall k | 0 <= k < n :: s[k] == Packet(Add16(seqNo, k), Add32(ts, FRAME * k))
  {
    seq(n, k => Packet(Add16(seqNo, k), Add32(ts, FRAME * k)))
  }

  class AudioPlayer {
    var sequenceNumber: U16
    var timestamp: U32

    constructor ()
      ensures sequenceNumber == 0 && timestamp == 0
    {
      sequenceNumber, timestamp := 0, 0;
    }

    /** The next packet follows the one that was numbered seqNo. */
    method SetSequence(seqNo: U16, ts: U32)
      modifies this
      ensures sequenceNumber == Add16(seqNo, 1) && timestamp == Add32(ts, FRAME)
    {
      sequenceNumber := Add16(seqNo, 1);
      timestamp := Add32(ts, FRAME);
    }

    /** The numbers of the packet that would be sent next. */
    method Sequence() returns (seqNo: U16, ts: U32)
      ensures seqNo == sequenceNumber && ts == timestamp
    {
      seqNo, ts := sequenceNumber, timestamp;
    }

    /** Sends packets until it is stopped, after n. */
    method Play(n: nat) returns (sent: seq<Packet>)
      modifies this
      ensures sent == PlayerRun(old(sequenceNumber), old(timestamp), n)
      ensures sequenceNumber == Add16(old(sequenceNumber), n) && timestamp == Add32(old(timestamp), FRAME * n)
    {
      sent := [];
      for k := 0 to n
        invariant sent == PlayerRun(old(sequenceNumber), old(timestamp), k)
        invariant sequenceNumber == Add16(old(sequenceNumber), k) && timestamp == Add32(old(timestamp), FRAME * k)
      {
        OneMore(old(sequenceNumber), old(timestamp), k);
        hide Add16, Add32;
        sent := sent + [Packet(sequenceNumber, timestamp)];
        sequenceNumber := Add16(sequenceNumber, 1);
        timestamp := Add32(timestamp, FRAME);
      }
    }
  }

  // ----- The bridge -----

  /** What becomes of the agent's packets after hold music whose next packet would have had these numbers. */
  function Bridged(seqOffset: U16, tsOffset: U32, agent: seq<Packet>): (s: seq<Packet>)
    ensures |s| == |agent|
  {
    if seqOffset == 0 then agent
    else seq(|agent|, k requires 0 <= k < |agent| => Rewritten(seqOffset, tsOffset, agent[0], agent[k]))
  }

  function Rewritten(seqOffset: U16, tsOffset: U32, base: Packet, p: Packet): Packet {
    Packet(Add16(seqOffset, Gap16(base.seqNo, p.seqNo) + 1), Add32(tsOffset, Gap32(base.ts, p.ts) + FRAME))
  }

  class AudioBridge {
    var seqOffset: U16
    var tsOffset: U32
    var firstAgentSeq: bool
    var agentBaseSeq: U16
    var agentBaseTS: U32
    var lastCallerSeq: U16
    var lastCallerTS: U32

    constructor ()
      ensures seqOffset == 0 && !firstAgentSeq && lastCallerSeq == 0 && lastCallerTS == 0
    {
      seqOffset, tsOffset, firstAgentSeq := 0, 0, false;
      agentBaseSeq, agentBaseTS, lastCallerSeq, lastCallerTS := 0, 0, 0, 0;
    }

    method SeedSequence(seqNo: U16, ts: U32)
      modifies this
      ensures seqOffset == seqNo && tsOffset == ts && firstAgentSeq
      ensures lastCallerSeq == old(lastCallerSeq) && lastCallerTS == old(lastCallerTS)
    {
      seqOffset, tsOffset, firstAgentSeq := seqNo, ts, true;
    }

    /** The agent's packets on their way to the caller, up to where the bridge is stopped. */
    method Forward(agent: seq<Packet>) returns (sent: seq<Packet>)
      requires seqOffset > 0 ==> firstAgentSeq
      modifies this
      ensures sent == Bridged(old(seqOffset), old(tsOffset), agent)
      ensures Packet(lastCallerSeq, lastCallerTS)
           == if agent == [] then Packet(old(lastCallerSeq), old(lastCallerTS)) else sent[|sent| - 1]
    {
      sent := [];
      for k := 0 to |agent|
        invariant seqOffset == old(seqOffset) && tsOffset == old(tsOffset)
        invariant seqOffset > 0 ==> firstAgentSeq == (k == 0)
        invariant seqOffset > 0 && k > 0 ==> agentBaseSeq == agent[0].seqNo && agentBaseTS == agent[0].ts
        invariant |sent| == k && forall j | 0 <= j < k :: sent[j] == Bridged(seqOffset, tsOffset, agent)[j]
        invariant Packet(lastCallerSeq, lastCallerTS)
               == if k == 0 then Packet(old(lastCallerSeq), old(lastCallerTS)) else sent[k - 1]
      {
        hide Add16, Add32, Gap16, Gap32;
        var pkt := agent[k];
        if firstAgentSeq {
          agentBaseSeq, agentBaseTS, firstAgentSeq := pkt.seqNo, pkt.ts, false;
        }
        if seqOffset > 0 {
          pkt := Packet(Add16(seqOffset, Gap16(agentBaseSeq, pkt.seqNo) + 1),
                        Add32(tsOffset, Gap32(agentBaseTS, pkt.ts) + FRAME));
        }
        lastCallerSeq, lastCallerTS := pkt.seqNo, pkt.ts;
        sent := sent + [pkt];
      }
    }

    method LastCallerSeq() returns (seqNo: U16, ts: U32)
      ensures seqNo == lastCallerSeq && ts == lastCallerTS
    {
      seqNo, ts := lastCallerSeq, lastCallerTS;
    }
  }

  // ----- A call -----

  /** Hold music, and then an agent. */
  datatype Leg = Leg(hold: nat, agent: seq<Packet>)

  /** The numbers that a player begins with. */
  type Mark = Packet

  function HoldOf(from: Mark, leg: Leg): seq<Packet> {
    PlayerRun(from.seqNo, from.ts, leg.hold)
  }

  /** What the player would have sent next when it is stopped. */
  function Offset(from: Mark, leg: Leg): Mark {
    Packet(Add16(from.seqNo, leg.hold), Add32(from.ts, FRAME * leg.hold))
  }

  function AgentOf(from: Mark, leg: Leg): (s: seq<Packet>)
    ensures |s| == |leg.agent|
  {
    Bridged(Offset(from, leg).seqNo, Offset(from, leg).ts, leg.agent)
  }

  /** Where the next player begins: a new one, at zero, unless the bridge has a last number other than zero. */
  function NextMark(from: Mark, leg: Leg): Mark {
    if leg.agent == [] || AgentOf(from, leg)[|leg.agent| - 1].seqNo == 0 then Packet(0, 0)
    else
      var last := AgentOf(from, leg)[|leg.agent| - 1];
      Packet(Add16(last.seqNo, 1), Add32(last.ts, FRAME))
  }

  function MarkAfter(from: Mark, legs: seq<Leg>): Mark {
    if legs == [] then from else NextMark(MarkAfter(from, legs[..|legs| - 1]), legs[|legs| - 1])
  }

  /** All that the caller hears. */
  function Heard(from: Mark, legs: seq<Leg>): seq<Packet> {
    if legs == [] then []
    else
      var before := MarkAfter(from, legs[..|legs| - 1]);
      Heard(from, legs[..|legs| - 1]) + HoldOf(before, legs[|legs| - 1]) + AgentOf(before, legs[|legs| - 1])
  }

  lemma NoLegs(from: Mark)
    ensures Heard(from, []) == [] && MarkAfter(from, []) == from
  {}

  lemma OneMoreLeg(from: Mark, legs: seq<Leg>, k: nat)
    requires k < |legs|
    ensures
      var before := MarkAfter(from, legs[..k]);
      && Heard(from, legs[..k + 1]) == Heard(from, legs[..k]) + HoldOf(before, legs[k]) + AgentOf(before, legs[k])
      && MarkAfter(from, legs[..k + 1]) == NextMark(before, legs[k])
  {
    hide HoldOf, AgentOf, NextMark;
    assert legs[..k + 1][..k] == legs[..k];
  }

  /** The manager's handovers: a player that has sent nothing does not seed the bridge, nor the reverse. */
  method RunCall(from: Mark, legs: seq<Leg>) returns (heard: seq<Packet>)
    ensures heard == Heard(from, legs)
  {
    hide Add16, Add32, PlayerRun, Rewritten;
    heard := [];
    NoLegs(from);
    hide Heard, MarkAfter;
    var player := new AudioPlayer();
    player.sequenceNumber, player.timestamp := from.seqNo, from.ts;
    for k := 0 to |legs|
      invariant fresh(player)
      invariant heard == Heard(from, legs[..k])
      invariant Packet(player.sequenceNumber, player.timestamp) == MarkAfter(from, legs[..k])
    {
      OneMoreLeg(from, legs, k);
      var music := player.Play(legs[k].hold);
      var holdSeq, holdTS := player.Sequence();
      var bridge := new AudioBridge();
      if holdSeq > 0 {
        bridge.SeedSequence(holdSeq, holdTS);
      }
      var speech := bridge.Forward(legs[k].agent);
      player := new AudioPlayer();
      var lastSeq, lastTS := bridge.LastCallerSeq();
      if lastSeq > 0 {
        player.SetSequence(lastSeq, lastTS);
      }
      heard := heard + music + speech;
    }
    assert legs[..|legs|] == legs;
  }

  // ----- The numbers themselves -----

  /** Hold music: a packet for every 20 ms, one number and 960 samples after the last, both counted around. */
  lemma PlayedNumbers(seqNo: U16, ts: U32, n: nat)
    ensures |PlayerRun(seqNo, ts, n)| == n
    ensures
      forall k | 0 <= k < n ::
        PlayerRun(seqNo, ts, n)[k].seqNo == (seqNo + k) % 65536 && PlayerRun(seqNo, ts, n)[k].ts == (ts + 960 * k) % 4294967296
  {}

  /** A seeded bridge begins one number and 960 samples after what it was seeded with, and keeps the agent's distances. */
  lemma BridgedNumbers(seqOffset: U16, tsOffset: U32, agent: seq<Packet>)
    ensures |Bridged(seqOffset, tsOffset, agent)| == |agent|
    ensures seqOffset == 0 ==> Bridged(seqOffset, tsOffset, agent) == agent
    ensures
      seqOffset > 0 ==>
        forall k | 0 <= k < |agent| ::
          var p, base, s := agent[k], agent[0], Bridged(seqOffset, tsOffset, agent)[k];
          && s.seqNo == (seqOffset + (p.seqNo - base.seqNo) % 65536 + 1) % 65536
          && s.ts == (tsOffset + (p.ts - base.ts) % 4294967296 + 960) % 4294967296
  {}

  /** What the next player begins with: zero, or one number and 960 samples after the agent's last packet. */
  lemma NextNumbers(from: Mark, leg: Leg)
    ensures
      var agent, mark := AgentOf(from, leg), NextMark(from, leg);
      if agent == [] || agent[|agent| - 1].seqNo == 0 then mark.seqNo == 0 && mark.ts == 0
      else mark.seqNo == (agent[|agent| - 1].seqNo + 1) % 65536 && mark.ts == (agent[|agent| - 1].ts + 960) % 4294967296
    ensures AgentOf(from, leg)
         == Bridged((from.seqNo + leg.hold) % 65536, (from.ts + 960 * leg.hold) % 4294967296, leg.agent)
  {}

  // ----- One bridge -----

  /** The agent's gaps are kept exactly, in numbers and in time. */
  lemma GapsAreKept(seqOffset: U16, tsOffset: U32, agent: seq<Packet>, j: nat, k: nat)
    requires j < |agent| && k < |agent|
    ensures
      var s := Bridged(seqOffset, tsOffset, agent);
      && Gap16(s[j].seqNo, s[k].seqNo) == Gap16(agent[j].seqNo, agent[k].seqNo)
      && Gap32(s[j].ts, s[k].ts) == Gap32(agent[j].ts, agent[k].ts)
  {
    if seqOffset != 0 {
      RewrittenGap(seqOffset, tsOffset, agent[0], agent[j], agent[k]);
    }
  }

  lemma RewrittenGap(seqOffset: U16, tsOffset: U32, base: Packet, p: Packet, q: Packet)
    ensures
      var p', q' := Rewritten(seqOffset, tsOffset, base, p), Rewritten(seqOffset, tsOffset, base, q);
      Gap16(p'.seqNo, q'.seqNo) == Gap16(p.seqNo, q.seqNo) && Gap32(p'.ts, q'.ts) == Gap32(p.ts, q.ts)
  {
    hide Mod;
    GapOfRewritten(seqOffset, base.seqNo, p.seqNo, q.seqNo, 1, 0x1_0000);
    GapOfRewritten(tsOffset, base.ts, p.ts, q.ts, FRAME, 0x1_0000_0000);
  }

  lemma GapOfRewritten(o: int, b: int, p: int, q: int, c: int, m: int)
    requires m > 0
    ensures Mod(Mod(o + (Mod(q - b, m) + c), m) - Mod(o + (Mod(p - b, m) + c), m), m) == Mod(q - p, m)
  {
    hide Mod;
    ModOfShift(o + c, p - b, m);
    ModOfShift(o + c, q - b, m);
    ModOfGap(o + c - b, p, q, m);
    assert o + (Mod(q - b, m) + c) == o + c + Mod(q - b, m) && o + (Mod(p - b, m) + c) == o + c + Mod(p - b, m);
    assert o + c + (q - b) == o + c - b + q && o + c + (p - b) == o + c - b + p;
  }

  /** The first packet of an agent comes two after the last of the music, whatever its own number, exactly when the player's next number is not zero. */
  lemma HandoverAdvancesByTwo(next: Mark)
    ensures next.seqNo != 0
       <==> forall p: Packet {:trigger Bridged(next.seqNo, next.ts, [p])} ::
              Gap16(Add16(next.seqNo, -1), Bridged(next.seqNo, next.ts, [p])[0].seqNo) == 2
  {
    if next.seqNo == 0 {
      assert Bridged(0, next.ts, [Packet(0, 0)])[0].seqNo == 0;
      assert Gap16(Add16(0, -1), 0) == 1;
    }
  }

  /** After an agent the music goes on by one exactly when the agent's last number, as the caller heard it, is not zero. */
  lemma MusicAdvancesByOneExactlyWhen(from: Mark, leg: Leg)
    requires leg.agent != []
    ensures
      var last := AgentOf(from, leg)[|leg.agent| - 1];
      last.seqNo != 0 <==> Gap16(last.seqNo, NextMark(from, leg).seqNo) == 1
  {
    var last := AgentOf(from, leg)[|leg.agent| - 1];
    hide AgentOf;
    if last.seqNo != 0 {
      GapToNext(last);
    }
  }

  // ----- The whole call -----

  /** Every agent is heard, speaks in order, and no handover number is zero. */
  ghost predicate Smooth(from: Mark, legs: seq<Leg>) {
    forall k | 0 <= k < |legs| ::
      var before := MarkAfter(from, legs[..k]);
      && legs[k].agent != [] && InOrder(legs[k].agent)
      && Offset(before, legs[k]).seqNo != 0 && AgentOf(before, legs[k])[|legs[k].agent| - 1].seqNo != 0
  }

  /** There are such calls, with a jump in an agent's numbers and two agents. */
  lemma ASmoothCall()
    ensures Smooth(Packet(1, 0), [Leg(5, [Packet(65000, 7), Packet(2, 967)]), Leg(3, [Packet(9, 0)])])
  {
    var from, first, second := Packet(1, 0), Leg(5, [Packet(65000, 7), Packet(2, 967)]), Leg(3, [Packet(9, 0)]);
    var legs := [first, second];
    assert Add16(1, 5) == 6 && Gap16(65000, 2) == 538 && Add16(6, 539) == 545 && Add16(545, 1) == 546;
    assert Add16(546, 3) == 549 && Gap16(9, 9) == 0 && Add16(549, 1) == 550;
    hide Mod, Add16, Gap16, Add32, Gap32;
    assert legs[..0] == [] && legs[..1] == [first];
    NoLegs(from);
    OneMoreLeg(from, legs, 0);
    hide MarkAfter, Heard;
    assert Offset(from, first).seqNo == 6 && AgentOf(from, first)[1].seqNo == 545;
    assert NextMark(from, first).seqNo == 546;
    assert InOrder(first.agent) && InOrder(second.agent);
  }

  /** The stream so far, and the number that goes on from it. */
  predicate GoesOn(heard: seq<Packet>, next: Mark) {
    heard != [] ==> Gap16(heard[|heard| - 1].seqNo, next.seqNo) == 1 && Gap32(heard[|heard| - 1].ts, next.ts) == FRAME
  }

  lemma InOrderConcat(a: seq<Packet>, b: seq<Packet>)
    requires InOrder(a) && InOrder(b) && (a != [] && b != [] ==> After(a[|a| - 1], b[0]))
    ensures InOrder(a + b)
  {}

  lemma MusicIsInOrder(from: Mark, n: nat)
    ensures InOrder(PlayerRun(from.seqNo, from.ts, n))
  {
    var music := PlayerRun(from.seqNo, from.ts, n);
    hide Add16, Add32, Gap16;
    forall j, k | 0 <= j < k < n && k == j + 1 ensures After(music[j], music[k]) {
      GapOfSums(from.seqNo, from.ts, j, k);
    }
  }

  lemma AddNothing(p: Packet)
    ensures Packet(Add16(p.seqNo, 0), Add32(p.ts, FRAME * 0)) == p
  {}

  /** A gap of one is no step back. */
  lemma OneIsAfter(a: Packet, b: Packet)
    requires Gap16(a.seqNo, b.seqNo) == 1
    ensures After(a, b)
  {}

  lemma MusicGoesOn(heard: seq<Packet>, from: Mark, leg: Leg)
    requires InOrder(heard) && GoesOn(heard, from)
    ensures InOrder(heard + HoldOf(from, leg)) && GoesOn(heard + HoldOf(from, leg), Offset(from, leg))
  {
    var music := HoldOf(from, leg);
    MusicIsInOrder(from, leg.hold);
    AddNothing(from);
    hide InOrder, Add16, Add32, Gap16, Gap32;
    if leg.hold == 0 {
      assert heard + music == heard && Offset(from, leg) == from;
    } else {
      assert music[0] == from;
      if heard != [] {
        OneIsAfter(heard[|heard| - 1], from);
      }
      InOrderConcat(heard, music);
      GapOfSums(from.seqNo, from.ts, leg.hold - 1, leg.hold);
    }
  }

  /** The first packet of a seeded bridge is the music's next number plus one, and a frame later. */
  lemma FirstOfAgent(seqOffset: U16, tsOffset: U32, p: Packet)
    ensures Rewritten(seqOffset, tsOffset, p, p) == Packet(Add16(seqOffset, 1), Add32(tsOffset, FRAME))
  {}

  lemma GapToNext(p: Packet)
    ensures Gap16(p.seqNo, Add16(p.seqNo, 1)) == 1 && Gap32(p.ts, Add32(p.ts, FRAME)) == FRAME
  {
    NextNumber(p.seqNo);
    NextFrame(p.ts);
  }

  lemma NextNumber(a: U16)
    ensures Gap16(a, Add16(a, 1)) == 1
  {}

  lemma NextFrame(t: U32)
    ensures Gap32(t, Add32(t, FRAME)) == FRAME
  {}

  lemma GapGrows(a: int, b: int, c: int, m: int)
    requires m > 0
    ensures Mod(Mod(b + c, m) - a, m) == Mod(Mod(b - a, m) + c, m)
  {
    hide Mod;
    ModOfShift(-a, b + c, m);
    ModOfShift(c, b - a, m);
    assert Mod(b + c, m) - a == -a + Mod(b + c, m) && Mod(b - a, m) + c == c + Mod(b - a, m);
    assert -a + (b + c) == c + (b - a);
  }

  lemma GapAdds(a: U16, b: U16, t: U32, u: U32)
    requires Gap16(a, b) == 1 && Gap32(t, u) == FRAME
    ensures Gap16(a, Add16(b, 1)) == 2 && Gap32(t, Add32(u, FRAME)) == 2 * FRAME
  {
    NumberGrows(a, b);
    TimeGrows(t, u);
    hide *;
  }

  lemma NumberGrows(a: U16, b: U16)
    requires Gap16(a, b) == 1
    ensures Gap16(a, Add16(b, 1)) == 2
  {
    GapGrows(a, b, 1, 0x1_0000);
  }

  lemma TimeGrows(t: U32, u: U32)
    requires Gap32(t, u) == FRAME
    ensures Gap32(t, Add32(u, FRAME)) == 2 * FRAME
  {
    GapGrows(t, u, FRAME, 0x1_0000_0000);
  }

  lemma AgentIsInOrder(next: Mark, agent: seq<Packet>)
    requires InOrder(agent)
    ensures InOrder(Bridged(next.seqNo, next.ts, agent))
  {
    var speech := Bridged(next.seqNo, next.ts, agent);
    forall j, k | 0 <= j < k < |speech| && k == j + 1 ensures After(speech[j], speech[k]) {
      GapsAreKept(next.seqNo, next.ts, agent, j, k);
      assert After(agent[j], agent[k]);
    }
  }

  lemma AgentGoesOn(heard: seq<Packet>, from: Mark, leg: Leg)
    requires InOrder(heard) && GoesOn(heard, Offset(from, leg))
    requires leg.agent != [] && InOrder(leg.agent) && Offset(from, leg).seqNo != 0
    requires AgentOf(from, leg)[|leg.agent| - 1].seqNo != 0
    ensures InOrder(heard + AgentOf(from, leg)) && GoesOn(heard + AgentOf(from, leg), NextMark(from, leg))
    ensures heard != [] ==>
      && Gap16(heard[|heard| - 1].seqNo, AgentOf(from, leg)[0].seqNo) == 2
      && Gap32(heard[|heard| - 1].ts, AgentOf(from, leg)[0].ts) == 2 * FRAME
  {
    var speech, next := AgentOf(from, leg), Offset(from, leg);
    AgentIsInOrder(next, leg.agent);
    hide InOrder, Offset, Add16, Add32, Gap16, Gap32, Rewritten;
    FirstOfAgent(next.seqNo, next.ts, leg.agent[0]);
    var last := speech[|speech| - 1];
    GapToNext(last);
    if heard != [] {
      var end := heard[|heard| - 1];
      GapAdds(end.seqNo, next.seqNo, end.ts, next.ts);
    }
    InOrderConcat(heard, speech);
  }

  /**
   Over any alternation of hold music and agents, the caller hears one stream in order: each handover
   advances by one or two, and nothing looks old to the receiver.
   */
  lemma {:induction false} CallIsOneStream(from: Mark, legs: seq<Leg>)
    requires Smooth(from, legs)
    ensures InOrder(Heard(from, legs)) && GoesOn(Heard(from, legs), MarkAfter(from, legs))
  {
    if legs != [] {
      var before, last := legs[..|legs| - 1], legs[|legs| - 1];
      SmoothToTheLast(from, legs);
      CallIsOneStream(from, before);
      var mark, heard := MarkAfter(from, before), Heard(from, before);
      assert Heard(from, legs) == heard + HoldOf(mark, last) + AgentOf(mark, last);
      assert MarkAfter(from, legs) == NextMark(mark, last);
      hide *;
      MusicGoesOn(heard, mark, last);
      AgentGoesOn(heard + HoldOf(mark, last), mark, last);
    }
  }

  lemma SmoothToTheLast(from: Mark, legs: seq<Leg>)
    requires Smooth(from, legs) && legs != []
    ensures Smooth(from, legs[..|legs| - 1])
    ensures
      var mark, last := MarkAfter(from, legs[..|legs| - 1]), legs[|legs| - 1];
      && last.agent != [] && InOrder(last.agent)
      && Offset(mark, last).seqNo != 0 && AgentOf(mark, last)[|last.agent| - 1].seqNo != 0
  {
    hide InOrder, MarkAfter, Offset, AgentOf;
    var before := legs[..|legs| - 1];
    forall k | 0 <= k < |before| ensures before[..k] == legs[..k] && before[k] == legs[k] {}
  }

  /** A player whose next number is zero does not seed the bridge: the caller may be sent a number from before. */
  lemma UnseededBridgeMayGoBack()
    ensures
      var leg := Leg(0x1_0000, [Packet(0x9000, 0)]);
      !InOrder(Heard(Packet(0, 0), [leg]))
  {
    var from, leg := Packet(0, 0), Leg(0x1_0000, [Packet(0x9000, 0)]);
    var music := HoldOf(from, leg);
    var heard := Heard(from, [leg]);
    hide PlayerRun;
    assert [leg][..0] == [];
    assert Heard(from, []) == [] && MarkAfter(from, []) == from;
    assert heard == music + AgentOf(from, leg);
    assert AgentOf(from, leg) == leg.agent;
    assert heard[0xFFFF] == music[0xFFFF] && heard[0x1_0000] == Packet(0x9000, 0);
    assert !After(heard[0xFFFF], heard[0x1_0000]);
  }
}
