/** Sequence-number accounting of a client, over the packets that reach it from the server. */
module Gaps {
  import opened Collections
  import opened Protocol
  import opened Numerals
  import opened Wire

  /** A packet made by createPacket; the i-th one made carries the number i + 1. */
  datatype Sent = Sent(kind: PacketType, payload: Option<Payload>)

  ghost predicate Sendable(sent: seq<Sent>) {
    && |sent| <= INT_MAX
    && forall i | 0 <= i < |sent| :: sent[i].payload.Some? ==> Representable(sent[i].payload.value)
  }

  function Data(payload: Option<Payload>): string {
    if payload.Some? then Join(PayloadFields(payload.value)) else ""
  }

  function Text(sent: seq<Sent>, i: nat): string
    requires i < |sent|
  {
    Packet(sent[i].kind, Data(sent[i].payload), i + 1)
  }

  /** A client with the numbers it has processed and the gap it computed at each. */
  datatype Tally = Tally(reader: Reader, numbers: seq<int>, gaps: seq<int>)

  function Take(t: Tally, text: string): Tally {
    var (r, outcome) := Parse(t.reader, text);
    if outcome == Parsed then Tally(r, t.numbers + [r.last], t.gaps + [r.last - t.reader.last - 1])
    else t.(reader := r)
  }

  /** The packets with these indices arrive, in this order; the others never do. */
  function Deliver(t: Tally, sent: seq<Sent>, order: seq<nat>): Tally
    requires forall i | 0 <= i < |order| :: order[i] < |sent|
  {
    if order == [] then t
    else Take(Deliver(t, sent, order[..|order| - 1]), Text(sent, order[|order| - 1]))
  }

  function TotalGap(s: seq<int>): int {
    if s == [] then 0 else TotalGap(s[..|s| - 1]) + s[|s| - 1]
  }

  /** A client that has received nothing. */
  const UNCONNECTED: Tally := Tally(Reader(0, 0, 0.0, 0.0, 0.0, 0.0, 0, 0), [], [])

  /** The most recent gap that was not zero, or the reading from before. */
  function LatestGap(before: int, gaps: seq<int>): int {
    if gaps == [] then before
    else if gaps[|gaps| - 1] != 0 then gaps[|gaps| - 1]
    else LatestGap(before, gaps[..|gaps| - 1])
  }

  // ---- One packet ----

  lemma HeartbeatChangesNothing(r: Reader, payload: Option<Payload>, number: int)
    requires payload.Some? ==> Representable(payload.value)
    ensures Parse(r, Packet(HEARTBEAT, Data(payload), number)) == (r, Heartbeat)
  {
    if payload.Some? {
      DataIsNotEmpty(payload.value);
      PayloadIsClean(payload.value);
      PacketParses(r, HEARTBEAT, PayloadFields(payload.value), number);
    } else {
      HeartbeatIsIgnored(r, number);
    }
  }

  lemma OtherPacketsCount(r: Reader, kind: PacketType, payload: Option<Payload>, number: int)
    requires kind != HEARTBEAT && INT_MIN <= number <= INT_MAX
    requires payload.Some? ==> Representable(payload.value)
    ensures var (v, outcome) := Parse(r, Packet(kind, Data(payload), number));
      && outcome == Parsed
      && v.last == number
      && v.lost == if number - r.last - 1 != 0 then number - r.last - 1 else r.lost
  {
    if payload.Some? {
      RoundTrip(r, kind, payload.value, number);
    } else {
      EmptyPayloadRoundTrip(r, kind, number);
    }
  }

  /** v is t after it has processed the packet with this number. */
  ghost predicate Counted(t: Tally, v: Tally, number: int) {
    var gap := number - t.reader.last - 1;
    && v.numbers == t.numbers + [number]
    && v.gaps == t.gaps + [gap]
    && v.reader.last == number
    && v.reader.lost == if gap != 0 then gap else t.reader.lost
  }

  lemma TakeCounts(t: Tally, sent: seq<Sent>, i: nat)
    requires Sendable(sent) && i < |sent|
    ensures if sent[i].kind == HEARTBEAT then Take(t, Text(sent, i)) == t else Counted(t, Take(t, Text(sent, i)), i + 1)
  {
    if sent[i].kind == HEARTBEAT {
      HeartbeatChangesNothing(t.reader, sent[i].payload, i + 1);
    } else {
      OtherPacketsCount(t.reader, sent[i].kind, sent[i].payload, i + 1);
    }
  }

  // ---- Accounting ----

  /** The number processed before the i-th one. */
  function Previous(numbers: seq<int>, i: nat): int
    requires i <= |numbers|
  {
    if i == 0 then 0 else numbers[i - 1]
  }

  ghost predicate Measured(t: Tally) {
    && |t.gaps| == |t.numbers|
    && forall i | 0 <= i < |t.numbers| :: t.gaps[i] == t.numbers[i] - Previous(t.numbers, i) - 1
  }

  ghost predicate GapsBalance(t: Tally) {
    && Measured(t)
    && t.reader.last == |t.numbers| + TotalGap(t.gaps)
    && t.reader.last == Previous(t.numbers, |t.numbers|)
    && t.reader.lost == LatestGap(0, t.gaps)
  }

  /** The numbers of the delivered packets in delivery order, heartbeats left out. */
  function Processed(sent: seq<Sent>, order: seq<nat>): (r: seq<int>)
    requires forall i | 0 <= i < |order| :: order[i] < |sent|
    ensures forall k | k in r :: 0 < k
  {
    if order == [] then []
    else
      var i := order[|order| - 1];
      var earlier := Processed(sent, order[..|order| - 1]);
      if sent[i].kind == HEARTBEAT then earlier else earlier + [i + 1]
  }

  lemma GapSnoc(s: seq<int>, x: int)
    ensures TotalGap(s + [x]) == TotalGap(s) + x
    ensures LatestGap(0, s + [x]) == if x != 0 then x else LatestGap(0, s)
  {
    assert (s + [x])[..|s|] == s;
  }

  lemma CountingKeepsBalance(t: Tally, v: Tally, number: int)
    requires GapsBalance(t) && Counted(t, v, number)
    ensures GapsBalance(v)
  {
    GapSnoc(t.gaps, number - t.reader.last - 1);
    forall i | 0 <= i < |v.numbers| ensures v.gaps[i] == v.numbers[i] - Previous(v.numbers, i) - 1 {
      assert i < |t.numbers| ==> Previous(v.numbers, i) == Previous(t.numbers, i);
    }
  }

  /**
    Whatever arrives, in whatever order: the last number is the count of processed packets plus the sum of the gaps
    computed for them, each gap is measured from the number processed before, and the reading is the latest nonzero one.
   */
  lemma {:induction false} DeliveriesBalance(sent: seq<Sent>, order: seq<nat>)
    requires Sendable(sent) && forall i | 0 <= i < |order| :: order[i] < |sent|
    ensures GapsBalance(Deliver(UNCONNECTED, sent, order))
    ensures Deliver(UNCONNECTED, sent, order).numbers == Processed(sent, order)
  {
    if order != [] {
      var before, i := order[..|order| - 1], order[|order| - 1];
      DeliveriesBalance(sent, before);
      var t := Deliver(UNCONNECTED, sent, before);
      TakeCounts(t, sent, i);
      if sent[i].kind != HEARTBEAT {
        CountingKeepsBalance(t, Take(t, Text(sent, i)), i + 1);
      }
    }
  }

  // ---- In order ----

  lemma AscendingStep(s: seq<int>, x: int)
    requires Ascending(s) && (s == [] || s[|s| - 1] < x)
    ensures Ascending(s + [x])
  {
  }

  predicate AllCounts(gaps: seq<int>) {
    forall i | 0 <= i < |gaps| :: gaps[i] >= 0
  }

  lemma {:induction false} CountsAscend(t: Tally, i: nat, j: nat)
    requires Measured(t) && AllCounts(t.gaps) && i < j < |t.numbers|
    ensures t.numbers[i] < t.numbers[j]
    decreases j
  {
    assert t.gaps[j] >= 0;
    if i < j - 1 {
      CountsAscend(t, i, j - 1);
    }
  }

  lemma AscendingGivesCounts(t: Tally)
    requires Measured(t) && Ascending(t.numbers) && forall k | k in t.numbers :: 0 < k
    ensures AllCounts(t.gaps)
  {
    forall i | 0 <= i < |t.gaps| ensures t.gaps[i] >= 0 {
      assert t.numbers[i] in t.numbers && Previous(t.numbers, i) < t.numbers[i];
    }
  }

  /** No gap is negative exactly when the packets are processed in the order in which they were made. */
  lemma GapsAreCountsIff(sent: seq<Sent>, order: seq<nat>)
    requires Sendable(sent) && forall i | 0 <= i < |order| :: order[i] < |sent|
    ensures AllCounts(Deliver(UNCONNECTED, sent, order).gaps) <==> Ascending(Processed(sent, order))
  {
    DeliveriesBalance(sent, order);
    var t := Deliver(UNCONNECTED, sent, order);
    if AllCounts(t.gaps) {
      forall i, j | 0 <= i < j < |t.numbers| ensures t.numbers[i] < t.numbers[j] {
        CountsAscend(t, i, j);
      }
    } else if Ascending(t.numbers) {
      AscendingGivesCounts(t);
    }
  }

  /** The numbers from 1 to the last one processed that were not processed: lost, or heartbeats. */
  function Skipped(numbers: seq<int>, last: int): set<int> {
    Below(last + 1) - {0} - Elements(numbers)
  }

  lemma AscendingIsDistinct(s: seq<int>)
    requires Ascending(s)
    ensures NoDuplicates(s)
  {
  }

  lemma AscendingEndsHighest(s: seq<int>, k: int)
    requires Ascending(s) && k in s
    ensures k <= s[|s| - 1]
  {
    var i :| 0 <= i < |s| && s[i] == k;
    assert i < |s| - 1 ==> s[i] < s[|s| - 1];
  }

  lemma SkippedCardinality(numbers: seq<int>, last: int)
    requires Ascending(numbers) && forall k | k in numbers :: 0 < k
    requires last == Previous(numbers, |numbers|)
    ensures |Skipped(numbers, last)| == last - |numbers|
  {
    AscendingIsDistinct(numbers);
    NoDuplicatesCardinality(numbers);
    BelowCardinality(last + 1);
    var all := Below(last + 1) - {0};
    assert |all| == last;
    forall k | k in Elements(numbers) ensures k in all {
      AscendingEndsHighest(numbers, k);
    }
    assert |all - Elements(numbers)| == |all| - |Elements(numbers)|;
  }

  /**
    Over a channel that loses packets but keeps their order, the gaps add up to the number of packets made before the
    last one processed and not processed themselves: the lost ones and the heartbeats.
   */
  lemma GapsCountSkipped(sent: seq<Sent>, order: seq<nat>)
    requires Sendable(sent) && forall i | 0 <= i < |order| :: order[i] < |sent|
    requires forall i, j | 0 <= i < j < |order| :: order[i] < order[j]
    ensures var t := Deliver(UNCONNECTED, sent, order);
      && AllCounts(t.gaps)
      && TotalGap(t.gaps) == |Skipped(Processed(sent, order), t.reader.last)|
  {
    DeliveriesBalance(sent, order);
    InOrderIsAscending(sent, order);
    GapsAreCountsIff(sent, order);
    var t := Deliver(UNCONNECTED, sent, order);
    SkippedCardinality(t.numbers, t.reader.last);
  }

  lemma {:induction false} InOrderIsAscending(sent: seq<Sent>, order: seq<nat>)
    requires forall i | 0 <= i < |order| :: order[i] < |sent|
    requires forall i, j | 0 <= i < j < |order| :: order[i] < order[j]
    ensures Ascending(Processed(sent, order))
    ensures var s := Processed(sent, order); s != [] ==> order != [] && s[|s| - 1] <= order[|order| - 1] + 1
  {
    if order != [] {
      var before, i := order[..|order| - 1], order[|order| - 1];
      InOrderIsAscending(sent, before);
      AscendingStep(Processed(sent, before), i + 1);
    }
  }
}
