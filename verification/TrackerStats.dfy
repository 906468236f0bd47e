/** Message states, the counters kept about them, and when the counters are right. */
module TrackerStats {
  import opened Sorting

  datatype MsgState = New | Batching | SendWait | AckWait | Processed

  /** Counts of one topic's messages in the three tracked states, or changes to them. */
  datatype Stats = Stats(batching: int, sendWait: int, ackWait: int)

  const ZERO := Stats(0, 0, 0)

  function Plus(a: Stats, b: Stats): Stats {
    Stats(a.batching + b.batching, a.sendWait + b.sendWait, a.ackWait + b.ackWait)
  }

  datatype Wrapper = Wrapper(stats: Stats, okToDelete: bool)

  datatype Delta = Delta(newDelta: int, stats: Stats)

  const NO_DELTA := Delta(0, ZERO)

  function Sum(a: Delta, b: Delta): Delta {
    Delta(a.newDelta + b.newDelta, Plus(a.stats, b.stats))
  }

  /** Change of the counters when a message enters a state; transitions reported as bugs
      change nothing. */
  function DeltaOf(prev: MsgState, to: MsgState): Delta {
    match to
    case Batching => (match prev case New => Delta(-1, Stats(1, 0, 0)) case _ => NO_DELTA)
    case SendWait =>
      (match prev
       case New => Delta(-1, Stats(0, 1, 0))
       case Batching => Delta(0, Stats(-1, 1, 0))
       case AckWait => Delta(0, Stats(0, 1, -1))
       case _ => NO_DELTA)
    case AckWait => (match prev case SendWait => Delta(0, Stats(0, -1, 1)) case _ => NO_DELTA)
    case Processed =>
      (match prev
       case New => Delta(-1, ZERO)
       case SendWait => Delta(0, Stats(0, -1, 0))
       case AckWait => Delta(0, Stats(0, 0, -1))
       case _ => NO_DELTA)
    case New => NO_DELTA
  }

  /** The transitions that are not reported as bugs. */
  predicate Legal(prev: MsgState, to: MsgState) {
    match to
    case New => false
    case Batching => prev == New
    case SendWait => prev != Processed
    case AckWait => prev == SendWait
    case Processed => prev == New || prev == SendWait || prev == AckWait
  }

  // -------------------------------------------------------------------- the counters

  datatype Counters = Counters(topics: map<string, Wrapper>, newCount: int)

  function StatsOf(c: Counters, topic: string): Stats {
    if topic in c.topics then c.topics[topic].stats else ZERO
  }

  /** UpdateStats on values: an entry is made when needed, and dropped when it has nothing
      left and its topic is gone. */
  function Apply(c: Counters, topic: string, d: Delta): Counters {
    var topics :=
      if d.stats == ZERO then c.topics
      else
        var w := if topic in c.topics then c.topics[topic] else Wrapper(ZERO, false);
        var w' := w.(stats := Plus(w.stats, d.stats));
        if w'.okToDelete && w'.stats == ZERO then c.topics - {topic} else c.topics[topic := w'];
    Counters(topics, c.newCount + d.newDelta)
  }

  lemma ApplyStats(c: Counters, topic: string, d: Delta)
    ensures StatsOf(Apply(c, topic, d), topic) == Plus(StatsOf(c, topic), d.stats)
    ensures forall t :: t != topic ==> StatsOf(Apply(c, topic, d), t) == StatsOf(c, t)
  {
    ApplyOwn(c, topic, d);
    hide Apply;
    forall t | t != topic ensures StatsOf(Apply(c, topic, d), t) == StatsOf(c, t) {
      ApplyOther(c, topic, d, t);
    }
  }

  lemma ApplyOwn(c: Counters, topic: string, d: Delta)
    ensures StatsOf(Apply(c, topic, d), topic) == Plus(StatsOf(c, topic), d.stats)
  {
    PlusZero(StatsOf(c, topic));
    hide Plus;
  }

  lemma ApplyOther(c: Counters, topic: string, d: Delta, t: string)
    requires t != topic
    ensures StatsOf(Apply(c, topic, d), t) == StatsOf(c, t)
  {
    hide Plus;
  }

  /** Two updates in one, unless the first one would drop the entry that the second
      needs. */
  lemma ApplyTwice(c: Counters, topic: string, a: Delta, b: Delta)
    requires a.stats != ZERO && b.stats != ZERO ==>
      Plus(a.stats, b.stats) != ZERO && StatsOf(Apply(c, topic, a), topic) != ZERO
    ensures Apply(Apply(c, topic, a), topic, b) == Apply(c, topic, Sum(a, b))
  {
    if a.stats != ZERO && b.stats != ZERO {
      var c' := Apply(c, topic, a);
      assert topic in c'.topics;
      assert c.topics - {topic} == c'.topics - {topic};
    }
  }

  // ------------------------------------------------------------------ counting messages

  /** A message as the counters see it. */
  datatype Item = Item(topic: string, state: MsgState)

  ghost function Count(items: seq<Item>, topic: string, state: MsgState): nat {
    if items == [] then 0
    else Count(items[..|items| - 1], topic, state) + if items[|items| - 1] == Item(topic, state) then 1 else 0
  }

  ghost function CountNew(items: seq<Item>): nat {
    if items == [] then 0 else CountNew(items[..|items| - 1]) + if items[|items| - 1].state == New then 1 else 0
  }

  ghost function CountStats(items: seq<Item>, topic: string): Stats {
    Stats(Count(items, topic, Batching), Count(items, topic, SendWait), Count(items, topic, AckWait))
  }

  /** The counters are what counting all messages gives; an absent topic counts zero. */
  ghost predicate Agrees(c: Counters, items: seq<Item>) {
    && c.newCount == CountNew(items)
    && forall t :: StatsOf(c, t) == CountStats(items, t)
  }

  function Moved(items: seq<Item>, i: nat, to: MsgState): seq<Item>
    requires i < |items|
  {
    items[i := items[i].(state := to)]
  }

  lemma {:induction false} CountMoved(items: seq<Item>, i: nat, to: MsgState, topic: string, state: MsgState)
    requires i < |items|
    ensures Count(Moved(items, i, to), topic, state) ==
      Count(items, topic, state)
      - (if items[i] == Item(topic, state) then 1 else 0)
      + (if items[i].topic == topic && to == state then 1 else 0)
  {
    var n := |items| - 1;
    if i == n {
      assert Moved(items, i, to)[..n] == items[..n];
    } else {
      CountMoved(items[..n], i, to, topic, state);
      assert Moved(items, i, to)[..n] == Moved(items[..n], i, to);
    }
  }

  lemma {:induction false} CountNewMoved(items: seq<Item>, i: nat, to: MsgState)
    requires i < |items|
    ensures CountNew(Moved(items, i, to)) ==
      CountNew(items) - (if items[i].state == New then 1 else 0) + (if to == New then 1 else 0)
  {
    var n := |items| - 1;
    if i == n {
      assert Moved(items, i, to)[..n] == items[..n];
    } else {
      CountNewMoved(items[..n], i, to);
      assert Moved(items, i, to)[..n] == Moved(items[..n], i, to);
    }
  }

  lemma {:induction false} Counted(items: seq<Item>, i: nat)
    requires i < |items|
    ensures Count(items, items[i].topic, items[i].state) > 0
  {
    if i == |items| - 1 {
    } else {
      Counted(items[..|items| - 1], i);
    }
  }

  function One(b: bool): int {
    if b then 1 else 0
  }

  /** Change of the counts, whatever the counters do. */
  function TrueDelta(prev: MsgState, to: MsgState): Stats {
    Stats(One(to == Batching) - One(prev == Batching),
          One(to == SendWait) - One(prev == SendWait),
          One(to == AckWait) - One(prev == AckWait))
  }

  /** A legal transition, or none. */
  predicate Fits(prev: MsgState, to: MsgState) {
    Legal(prev, to) || prev == to
  }

  /** A transition that fits changes the counters just as it changes the counts. */
  lemma LegalDelta(prev: MsgState, to: MsgState)
    requires to != New && Fits(prev, to)
    ensures DeltaOf(prev, to) == Delta(-One(prev == New), TrueDelta(prev, to))
  {
  }

  lemma IllegalDelta(prev: MsgState, to: MsgState)
    requires to != New && !Fits(prev, to)
    ensures DeltaOf(prev, to) == NO_DELTA && (to != Processed || prev == Batching)
  {
  }

  lemma StatsMoved(items: seq<Item>, i: nat, to: MsgState, topic: string)
    requires i < |items|
    ensures CountStats(Moved(items, i, to), topic) ==
      Plus(CountStats(items, topic), if items[i].topic == topic then TrueDelta(items[i].state, to) else ZERO)
  {
    hide Count, Moved;
    CountMoved(items, i, to, topic, Batching);
    CountMoved(items, i, to, topic, SendWait);
    CountMoved(items, i, to, topic, AckWait);
  }

  lemma AgreesWhen(c: Counters, items: seq<Item>)
    ensures Agrees(c, items) <==> c.newCount == CountNew(items) && forall t :: StatsOf(c, t) == CountStats(items, t)
  {
  }

  lemma LegalKeeps(c: Counters, items: seq<Item>, i: nat, to: MsgState)
    requires Agrees(c, items) && i < |items| && to != New && Fits(items[i].state, to)
    ensures Agrees(Apply(c, items[i].topic, DeltaOf(items[i].state, to)), Moved(items, i, to))
  {
    hide Agrees, CountNew, CountStats, StatsOf, Apply, DeltaOf, Fits, Moved, TrueDelta, Plus;
    var topic, d := items[i].topic, DeltaOf(items[i].state, to);
    var c', items' := Apply(c, topic, d), Moved(items, i, to);
    LegalDelta(items[i].state, to);
    ApplyStats(c, topic, d);
    ApplyNew(c, topic, d);
    CountNewMoved(items, i, to);
    AgreesWhen(c, items);
    forall t ensures StatsOf(c', t) == CountStats(items', t) {
      StatsMoved(items, i, to, t);
      PlusZero(CountStats(items, t));
    }
    AgreesWhen(c', items');
  }

  lemma PlusZero(a: Stats)
    ensures Plus(a, ZERO) == a
  {
  }

  lemma ApplyNew(c: Counters, topic: string, d: Delta)
    ensures Apply(c, topic, d).newCount == c.newCount + d.newDelta
  {
  }

  /** A transition keeps the counters right exactly when it is legal or changes nothing. */
  lemma AgreesIff(c: Counters, items: seq<Item>, i: nat, to: MsgState)
    requires Agrees(c, items) && i < |items| && to != New
    ensures Agrees(Apply(c, items[i].topic, DeltaOf(items[i].state, to)), Moved(items, i, to)) <==>
            Fits(items[i].state, to)
  {
    hide Agrees, Apply, DeltaOf, Fits, Moved;
    if Fits(items[i].state, to) {
      LegalKeeps(c, items, i, to);
    } else {
      IllegalBreaks(c, items, i, to);
    }
  }

  lemma IllegalBreaks(c: Counters, items: seq<Item>, i: nat, to: MsgState)
    requires Agrees(c, items) && i < |items| && to != New && !Fits(items[i].state, to)
    ensures !Agrees(Apply(c, items[i].topic, DeltaOf(items[i].state, to)), Moved(items, i, to))
  {
    hide Agrees, CountStats, Apply, DeltaOf, Moved;
    var topic := items[i].topic;
    IllegalDelta(items[i].state, to);
    ApplyStats(c, topic, NO_DELTA);
    StatsMoved(items, i, to, topic);
    AgreesAt(c, items, topic);
    if Agrees(Apply(c, topic, NO_DELTA), Moved(items, i, to)) {
      AgreesAt(Apply(c, topic, NO_DELTA), Moved(items, i, to), topic);
    }
  }

  lemma AgreesAt(c: Counters, items: seq<Item>, topic: string)
    requires Agrees(c, items)
    ensures StatsOf(c, topic) == CountStats(items, topic)
  {
  }

  /** Some discard paths hand a message that is being batched to MsgEnterProcessed; the
      batching counter then stays one too high. */
  lemma BatchingToProcessedMiscounts(topic: string)
    ensures var c := Counters(map[topic := Wrapper(Stats(1, 0, 0), false)], 0);
      var items := [Item(topic, Batching)];
      Agrees(c, items) && !Agrees(Apply(c, topic, DeltaOf(Batching, Processed)), Moved(items, 0, Processed))
  {
    var c, items := Counters(map[topic := Wrapper(Stats(1, 0, 0), false)], 0), [Item(topic, Batching)];
    forall t ensures StatsOf(c, t) == CountStats(items, t) {
      assert items[..0] == [] && items[0] == Item(topic, Batching);
      assert Count([], t, Batching) == Count([], t, SendWait) == Count([], t, AckWait) == 0;
      assert Count(items, t, Batching) == if t == topic then 1 else 0;
    }
    assert CountNew([]) == 0 && items[..0] == [];
    AgreesIff(c, items, 0, Processed);
  }

  // --------------------------------------------------------------------------- lists

  /** The change that a list call accumulates, by the states that the messages leave. */
  function DeltaSum(states: seq<MsgState>, to: MsgState): Delta {
    if states == [] then NO_DELTA
    else Sum(DeltaSum(states[..|states| - 1], to), DeltaOf(states[|states| - 1], to))
  }

  /** The same messages one at a time. */
  ghost function ApplyEach(c: Counters, topic: string, states: seq<MsgState>, to: MsgState): Counters {
    if states == [] then c
    else Apply(ApplyEach(c, topic, states[..|states| - 1], to), topic, DeltaOf(states[|states| - 1], to))
  }

  ghost function MovedAll(items: seq<Item>, idx: seq<nat>, to: MsgState): (r: seq<Item>)
    requires forall k :: 0 <= k < |idx| ==> idx[k] < |items|
    ensures |r| == |items|
  {
    if idx == [] then items else Moved(MovedAll(items, idx[..|idx| - 1], to), idx[|idx| - 1], to)
  }

  lemma {:induction false} MovedAllAt(items: seq<Item>, idx: seq<nat>, to: MsgState, i: nat)
    requires (forall k :: 0 <= k < |idx| ==> idx[k] < |items|) && i < |items|
    ensures MovedAll(items, idx, to)[i] == if i in idx then items[i].(state := to) else items[i]
  {
    if idx == [] {
    } else {
      var n := |idx| - 1;
      MovedAllAt(items, idx[..n], to, i);
      assert idx == idx[..n] + [idx[n]];
    }
  }

  function StatesOf(items: seq<Item>, idx: seq<nat>): seq<MsgState>
    requires forall k :: 0 <= k < |idx| ==> idx[k] < |items|
  {
    seq(|idx|, k requires 0 <= k < |idx| => items[idx[k]].state)
  }

  /** Distinct messages of one topic that may all enter a state. */
  ghost predicate ListOk(items: seq<Item>, idx: seq<nat>, topic: string, to: MsgState) {
    && (to == SendWait || to == AckWait || to == Processed)
    && NoDuplicates(idx)
    && forall k :: 0 <= k < |idx| ==> idx[k] < |items| && items[idx[k]].topic == topic && Legal(items[idx[k]].state, to)
  }

  /** Entering a state never lowers its own count, and entering Processed only lowers. */
  ghost predicate SignOk(d: Stats, to: MsgState) {
    && (to == SendWait ==> d.sendWait >= 0 && (d.sendWait == 0 ==> d == ZERO))
    && (to == AckWait ==> d.ackWait >= 0 && (d.ackWait == 0 ==> d == ZERO))
    && (to == Processed ==> d.batching == 0 && d.sendWait <= 0 && d.ackWait <= 0)
  }

  lemma DeltaSign(prev: MsgState, to: MsgState)
    ensures SignOk(DeltaOf(prev, to).stats, to)
    ensures to == Processed && DeltaOf(prev, to).stats != ZERO ==> prev == SendWait || prev == AckWait
  {
  }

  lemma {:induction false} SumSign(states: seq<MsgState>, to: MsgState)
    ensures SignOk(DeltaSum(states, to).stats, to)
  {
    if states == [] {
    } else {
      hide DeltaOf;
      SumSign(states[..|states| - 1], to);
      DeltaSign(states[|states| - 1], to);
    }
  }

  /** A list call keeps the counters right, and equals the same single calls in turn. */
  lemma {:induction false} ListKeeps(c: Counters, items: seq<Item>, idx: seq<nat>, topic: string, to: MsgState)
    requires Agrees(c, items) && ListOk(items, idx, topic, to)
    ensures var states := StatesOf(items, idx);
      && Agrees(Apply(c, topic, DeltaSum(states, to)), MovedAll(items, idx, to))
      && Apply(c, topic, DeltaSum(states, to)) == ApplyEach(c, topic, states, to)
    decreases |idx|
  {
    hide Agrees, Apply, DeltaOf, Legal, Moved, MovedAll, DeltaSum, ApplyEach;
    var states := StatesOf(items, idx);
    if idx == [] {
      ListNone(c, items, topic, to);
    } else {
      LastOfList(c, topic, states, to);
      var n, last := |idx| - 1, idx[|idx| - 1];
      assert StatesOf(items, idx[..n]) == states[..n];
      ListKeeps(c, items, idx[..n], topic, to);
      var items' := MovedAll(items, idx[..n], to);
      var sum, d := DeltaSum(states[..n], to), DeltaOf(states[n], to);
      var c' := Apply(c, topic, sum);
      MovedAllAt(items, idx[..n], to, last);
      assert items'[last] == items[last];
      LegalKeeps(c', items', last, to);
      MovedAllLast(items, idx, to);
      NotDropped(c', items, idx[..n], topic, to, items', last);
      SumSign(states[..n], to);
      DeltaSign(states[n], to);
      TwoNonZero(sum.stats, d.stats, to);
      assert n == 0 ==> sum == NO_DELTA by { SumNone(to); }
      ApplyTwice(c, topic, sum, d);
    }
  }

  lemma ListNone(c: Counters, items: seq<Item>, topic: string, to: MsgState)
    ensures Apply(c, topic, DeltaSum([], to)) == c == ApplyEach(c, topic, [], to)
    ensures MovedAll(items, [], to) == items
  {
  }

  lemma SumNone(to: MsgState)
    ensures DeltaSum([], to) == NO_DELTA
  {
  }

  lemma LastOfList(c: Counters, topic: string, states: seq<MsgState>, to: MsgState)
    requires states != []
    ensures var n := |states| - 1;
      && DeltaSum(states, to) == Sum(DeltaSum(states[..n], to), DeltaOf(states[n], to))
      && ApplyEach(c, topic, states, to) == Apply(ApplyEach(c, topic, states[..n], to), topic, DeltaOf(states[n], to))
  {
  }

  lemma TwoNonZero(a: Stats, b: Stats, to: MsgState)
    requires (to == SendWait || to == AckWait || to == Processed) && SignOk(a, to) && SignOk(b, to)
    ensures a != ZERO && b != ZERO ==> Plus(a, b) != ZERO
  {
  }

  lemma MovedAllLast(items: seq<Item>, idx: seq<nat>, to: MsgState)
    requires (forall k :: 0 <= k < |idx| ==> idx[k] < |items|) && idx != []
    ensures MovedAll(items, idx, to) == Moved(MovedAll(items, idx[..|idx| - 1], to), idx[|idx| - 1], to)
  {
  }

  /** Half way through a list the topic's counts are not all zero. */
  lemma NotDropped(c: Counters, items: seq<Item>, idx: seq<nat>, topic: string, to: MsgState, items': seq<Item>,
      last: nat)
    requires (to == SendWait || to == AckWait || to == Processed) && last < |items| && items[last].topic == topic
    requires forall k :: 0 <= k < |idx| ==> idx[k] < |items| && items[idx[k]].topic == topic
    requires items' == MovedAll(items, idx, to) && Agrees(c, items') && items'[last] == items[last]
    ensures idx != [] && to != Processed ==> StatsOf(c, topic) != ZERO
    ensures items[last].state == SendWait || items[last].state == AckWait ==> StatsOf(c, topic) != ZERO
  {
    hide Count, MovedAll;
    assert StatsOf(c, topic) == CountStats(items', topic);
    Counted(items', last);
    if idx != [] {
      MovedAllAt(items, idx, to, idx[0]);
      Counted(items', idx[0]);
    }
  }

  // ------------------------------------------------------------------ lists of any kind

  /** Distinct messages. */
  ghost predicate AnyList(items: seq<Item>, idx: seq<nat>) {
    NoDuplicates(idx) && forall k :: 0 <= k < |idx| ==> idx[k] < |items|
  }

  function Picked(items: seq<Item>, idx: seq<nat>): seq<Item>
    requires forall k :: 0 <= k < |idx| ==> idx[k] < |items|
  {
    seq(|idx|, k requires 0 <= k < |idx| => items[idx[k]])
  }

  /** The change that a list call accumulates. */
  ghost function ListSum(list: seq<Item>, to: MsgState): Delta {
    DeltaSum(seq(|list|, k requires 0 <= k < |list| => list[k].state), to)
  }

  /** The change of one topic's counts. */
  ghost function TrueSum(list: seq<Item>, topic: string, to: MsgState): Stats {
    if list == [] then ZERO
    else
      var last := list[|list| - 1];
      Plus(TrueSum(list[..|list| - 1], topic, to), if last.topic == topic then TrueDelta(last.state, to) else ZERO)
  }

  lemma ListSumLast(list: seq<Item>, to: MsgState)
    requires list != []
    ensures ListSum(list, to) == Sum(ListSum(list[..|list| - 1], to), DeltaOf(list[|list| - 1].state, to))
  {
    var n, states := |list| - 1, seq(|list|, k requires 0 <= k < |list| => list[k].state);
    assert states[..n] == seq(n, k requires 0 <= k < n => list[..n][k].state);
  }

  lemma TrueSumLast(list: seq<Item>, topic: string, to: MsgState)
    requires list != []
    ensures var n := |list| - 1;
      TrueSum(list, topic, to) ==
      Plus(TrueSum(list[..n], topic, to), if list[n].topic == topic then TrueDelta(list[n].state, to) else ZERO)
  {
  }

  /** All but the last message of a list, and the last one after that. */
  lemma ListInit(items: seq<Item>, idx: seq<nat>, to: MsgState)
    requires AnyList(items, idx) && idx != []
    ensures var n, last := |idx| - 1, idx[|idx| - 1];
      && AnyList(items, idx[..n]) && last < |items|
      && (forall k :: 0 <= k < |idx| ==> idx[k] < |items|)
      && MovedAll(items, idx[..n], to)[last] == items[last]
      && Picked(items, idx)[..n] == Picked(items, idx[..n]) && Picked(items, idx)[n] == items[last]
  {
    MovedAllAt(items, idx[..|idx| - 1], to, idx[|idx| - 1]);
  }

  lemma {:induction false} TrueSumCounts(items: seq<Item>, idx: seq<nat>, topic: string, to: MsgState)
    requires AnyList(items, idx)
    ensures CountStats(MovedAll(items, idx, to), topic) ==
      Plus(CountStats(items, topic), TrueSum(Picked(items, idx), topic, to))
    decreases |idx|
  {
    if idx == [] {
    } else {
      ListInit(items, idx, to);
      hide CountStats, TrueDelta, Moved, MovedAll, AnyList, TrueSum, Picked, Plus;
      var n, last := |idx| - 1, idx[|idx| - 1];
      TrueSumCounts(items, idx[..n], topic, to);
      TrueSumLast(Picked(items, idx), topic, to);
      MovedAllLast(items, idx, to);
      StatsMoved(MovedAll(items, idx[..n], to), last, to, topic);
      PlusAssociates(CountStats(items, topic), TrueSum(Picked(items, idx[..n]), topic, to),
        if items[last].topic == topic then TrueDelta(items[last].state, to) else ZERO);
    }
  }

  lemma PlusAssociates(a: Stats, b: Stats, c: Stats)
    ensures Plus(Plus(a, b), c) == Plus(a, Plus(b, c))
  {
  }

  ghost predicate AllFit(list: seq<Item>, to: MsgState) {
    forall x :: x in list ==> Fits(x.state, to)
  }

  /** None of the topic's messages changes its counts. */
  ghost predicate TopicIdle(list: seq<Item>, topic: string, to: MsgState) {
    forall x :: x in list && x.topic == topic ==> TrueDelta(x.state, to) == ZERO
  }

  /** At most the messages of one topic change counts. */
  ghost predicate OthersIdle(list: seq<Item>, topic: string, to: MsgState) {
    forall x :: x in list && x.topic != topic ==> TrueDelta(x.state, to) == ZERO
  }

  lemma OthersIdleByTopic(list: seq<Item>, topic: string, to: MsgState)
    ensures OthersIdle(list, topic, to) <==> forall t :: t != topic ==> TopicIdle(list, t, to)
  {
    hide TrueDelta;
    assert forall x :: x in list && TopicIdle(list, x.topic, to) ==> TrueDelta(x.state, to) == ZERO;
  }

  /** What is true of a list is true of its last message and of the others. */
  lemma LastOfAny(list: seq<Item>, topic: string, to: MsgState)
    requires list != []
    ensures var n, last := |list| - 1, list[|list| - 1];
      && (AllFit(list, to) <==> AllFit(list[..n], to) && Fits(last.state, to))
      && (TopicIdle(list, topic, to) <==>
          TopicIdle(list[..n], topic, to) && (last.topic == topic ==> TrueDelta(last.state, to) == ZERO))
      && (OthersIdle(list, topic, to) <==>
          OthersIdle(list[..n], topic, to) && (last.topic != topic ==> TrueDelta(last.state, to) == ZERO))
  {
    hide Fits, TrueDelta;
    assert list == list[..|list| - 1] + [list[|list| - 1]];
  }

  /** Entering a state never lowers its own count, and entering Processed only lowers. */
  ghost predicate TrueSign(d: Stats, to: MsgState) {
    && (to == SendWait ==> d.sendWait >= 0 && (d.sendWait == 0 ==> d == ZERO))
    && (to == AckWait ==> d.ackWait >= 0 && (d.ackWait == 0 ==> d == ZERO))
    && (to == Processed ==> d.batching <= 0 && d.sendWait <= 0 && d.ackWait <= 0)
  }

  lemma TrueSignSum(a: Stats, b: Stats, to: MsgState)
    requires (to == SendWait || to == AckWait || to == Processed) && TrueSign(a, to) && TrueSign(b, to)
    ensures TrueSign(Plus(a, b), to) && (Plus(a, b) == ZERO <==> a == ZERO && b == ZERO)
  {
    IsZero(a);
    IsZero(b);
    IsZero(Plus(a, b));
    if to == SendWait {
    } else if to == AckWait {
    } else {
    }
  }

  lemma IsZero(s: Stats)
    ensures s == ZERO <==> s.batching == 0 && s.sendWait == 0 && s.ackWait == 0
  {
  }

  lemma TrueDeltaSign(prev: MsgState, to: MsgState)
    ensures TrueSign(TrueDelta(prev, to), to) && TrueSign(ZERO, to)
  {
  }

  /** Changes of one topic never cancel each other out. */
  lemma {:induction false} TrueSumZero(list: seq<Item>, topic: string, to: MsgState)
    requires to == SendWait || to == AckWait || to == Processed
    ensures TrueSign(TrueSum(list, topic, to), to)
    ensures TrueSum(list, topic, to) == ZERO <==> TopicIdle(list, topic, to)
  {
    if list == [] {
    } else {
      hide TrueDelta, TopicIdle, TrueSum, TrueSign, Plus, AllFit, OthersIdle;
      var n := |list| - 1;
      TrueSumZero(list[..n], topic, to);
      LastOfAny(list, topic, to);
      TrueSumLast(list, topic, to);
      TrueDeltaSign(list[n].state, to);
      TrueSignSum(TrueSum(list[..n], topic, to),
        if list[n].topic == topic then TrueDelta(list[n].state, to) else ZERO, to);
    }
  }

  /** The count that tells a transition that does not fit: those who should enter the state,
      or leave Batching, and are not counted. */
  ghost function Own(d: Stats, to: MsgState): int {
    if to == SendWait then d.sendWait else if to == AckWait then d.ackWait else -d.batching
  }

  lemma OwnDelta(prev: MsgState, to: MsgState)
    requires to == SendWait || to == AckWait || to == Processed
    ensures var coded, true' := DeltaOf(prev, to).stats, TrueDelta(prev, to);
      && Own(coded, to) <= Own(true', to)
      && (Own(coded, to) == Own(true', to) <==> Fits(prev, to))
      && (Fits(prev, to) ==> coded == true')
      && (true' == ZERO ==> Fits(prev, to))
  {
  }

  lemma OwnPlus(a: Stats, b: Stats, to: MsgState)
    ensures Own(Plus(a, b), to) == Own(a, to) + Own(b, to) && Own(ZERO, to) == 0
  {
  }

  /** If only one topic's counts change, a transition that does not fit leaves the
      accumulated change short. */
  lemma {:induction false} OwnFallsShort(list: seq<Item>, topic: string, to: MsgState)
    requires (to == SendWait || to == AckWait || to == Processed) && OthersIdle(list, topic, to)
    ensures var coded, true' := Own(ListSum(list, to).stats, to), Own(TrueSum(list, topic, to), to);
      coded <= true' && (coded == true' ==> AllFit(list, to))
  {
    if list == [] {
    } else {
      hide DeltaOf, TrueDelta, TopicIdle, TrueSum, ListSum, Plus, Own, AllFit, OthersIdle, Fits;
      var n, last := |list| - 1, list[|list| - 1];
      LastOfAny(list, topic, to);
      OwnFallsShort(list[..n], topic, to);
      ListSumLast(list, to);
      TrueSumLast(list, topic, to);
      OwnDelta(last.state, to);
      OwnPlus(ListSum(list[..n], to).stats, DeltaOf(last.state, to).stats, to);
      OwnPlus(TrueSum(list[..n], topic, to), if last.topic == topic then TrueDelta(last.state, to) else ZERO, to);
    }
  }

  lemma {:induction false} FittingSum(list: seq<Item>, topic: string, to: MsgState)
    requires (to == SendWait || to == AckWait || to == Processed) && OthersIdle(list, topic, to) && AllFit(list, to)
    ensures ListSum(list, to).stats == TrueSum(list, topic, to)
  {
    if list == [] {
    } else {
      hide DeltaOf, TrueDelta, TopicIdle, TrueSum, ListSum, Plus, Own, AllFit, OthersIdle, Fits;
      var n, last := |list| - 1, list[|list| - 1];
      LastOfAny(list, topic, to);
      FittingSum(list[..n], topic, to);
      ListSumLast(list, to);
      TrueSumLast(list, topic, to);
      OwnDelta(last.state, to);
    }
  }

  lemma {:induction false} FittingSumNew(items: seq<Item>, idx: seq<nat>, to: MsgState)
    requires to != New && AnyList(items, idx) && AllFit(Picked(items, idx), to)
    ensures CountNew(MovedAll(items, idx, to)) == CountNew(items) + ListSum(Picked(items, idx), to).newDelta
    decreases |idx|
  {
    if idx == [] {
    } else {
      ListInit(items, idx, to);
      hide CountNew, DeltaOf, Legal, Moved, MovedAll, AnyList, Picked, ListSum;
      hide AllFit, OthersIdle, TopicIdle, TrueDelta;
      var n, last := |idx| - 1, idx[|idx| - 1];
      LastOfAny(Picked(items, idx), "", to);
      FittingSumNew(items, idx[..n], to);
      ListSumLast(Picked(items, idx), to);
      MovedAllLast(items, idx, to);
      CountNewMoved(MovedAll(items, idx[..n], to), last, to);
      LegalDelta(items[last].state, to);
    }
  }

  /** A list call files the change of the whole list under the topic of its first message.
      This keeps the counters right if and only if each of the transitions would do so on
      its own and no message of another topic changes the counts of its topic. */
  lemma ListIff(c: Counters, items: seq<Item>, idx: seq<nat>, to: MsgState)
    requires Agrees(c, items) && AnyList(items, idx) && idx != []
    requires to == SendWait || to == AckWait || to == Processed
    ensures var list := Picked(items, idx);
      Agrees(Apply(c, list[0].topic, DeltaSum(StatesOf(items, idx), to)), MovedAll(items, idx, to)) <==>
      AllFit(list, to) && OthersIdle(list, list[0].topic, to)
  {
    hide Agrees, CountStats, Apply, DeltaOf, DeltaSum, MovedAll, TrueSum, TopicIdle, OthersIdle, AllFit;
    var list := Picked(items, idx);
    var topic, d := list[0].topic, DeltaSum(StatesOf(items, idx), to);
    var c', items' := Apply(c, topic, d), MovedAll(items, idx, to);
    forall t ensures StatsOf(c', t) == CountStats(items', t) <==>
      if t == topic then d.stats == TrueSum(list, t, to) else TopicIdle(list, t, to)
    {
      ListCountsAt(c, items, idx, t, to);
    }
    assert StatesOf(items, idx) == seq(|list|, k requires 0 <= k < |list| => list[k].state);
    ApplyNew(c, topic, d);
    OthersIdleByTopic(list, topic, to);
    AgreesWhen(c, items);
    AgreesWhen(c', items');
    if OthersIdle(list, topic, to) {
      OwnFallsShort(list, topic, to);
      if AllFit(list, to) {
        FittingSum(list, topic, to);
        FittingSumNew(items, idx, to);
      }
    }
  }

  lemma ListCountsAt(c: Counters, items: seq<Item>, idx: seq<nat>, t: string, to: MsgState)
    requires Agrees(c, items) && AnyList(items, idx) && idx != []
    requires to == SendWait || to == AckWait || to == Processed
    ensures var list := Picked(items, idx);
      var d := DeltaSum(StatesOf(items, idx), to);
      StatsOf(Apply(c, list[0].topic, d), t) == CountStats(MovedAll(items, idx, to), t) <==>
      if t == list[0].topic then d.stats == TrueSum(list, t, to) else TopicIdle(list, t, to)
  {
    hide CountStats, Apply, DeltaOf, DeltaSum, MovedAll, TrueSum, TopicIdle, StatesOf, Agrees, TrueSign, StatsOf;
    var list := Picked(items, idx);
    ApplyStats(c, list[0].topic, DeltaSum(StatesOf(items, idx), to));
    TrueSumCounts(items, idx, t, to);
    TrueSumZero(list, t, to);
    AgreesAt(c, items, t);
  }

  /** Two messages of different topics that leave SendWait in one call: the first topic is
      left one too low and the other one too high. */
  lemma MixedListMiscounts(t: string, u: string)
    requires t != u
    ensures var w := Wrapper(Stats(0, 1, 0), false);
      var c, items := Counters(map[t := w, u := w], 0), [Item(t, SendWait), Item(u, SendWait)];
      && Agrees(c, items)
      && !Agrees(Apply(c, t, DeltaSum(StatesOf(items, [0, 1]), Processed)), MovedAll(items, [0, 1], Processed))
  {
    var w := Wrapper(Stats(0, 1, 0), false);
    var c, items := Counters(map[t := w, u := w], 0), [Item(t, SendWait), Item(u, SendWait)];
    assert Agrees(c, items) by { TwoWaiting(c, t, u); }
    hide Agrees, Apply, DeltaSum, MovedAll;
    hide TrueDelta, StatesOf;
    assert Picked(items, [0, 1]) == items && items[1] in items;
    assert TrueDelta(SendWait, Processed) != ZERO by { LeavesSendWait(); }
    ListIff(c, items, [0, 1], Processed);
  }

  lemma LeavesSendWait()
    ensures TrueDelta(SendWait, Processed) == Stats(0, -1, 0)
  {
  }

  lemma TwoWaiting(c: Counters, t: string, u: string)
    requires t != u && c.newCount == 0
    requires c.topics == map[t := Wrapper(Stats(0, 1, 0), false), u := Wrapper(Stats(0, 1, 0), false)]
    ensures Agrees(c, [Item(t, SendWait), Item(u, SendWait)])
  {
    var one, two := [Item(t, SendWait)], [Item(t, SendWait), Item(u, SendWait)];
    assert one[..0] == [] && two[..1] == one;
    forall x ensures StatsOf(c, x) == CountStats(two, x) {
      assert CountStats([], x) == ZERO;
      assert CountStats(one, x) == if x == t then Stats(0, 1, 0) else ZERO;
    }
    assert CountNew([]) == 0 && CountNew(one) == 0;
  }

  // -------------------------------------------------------------------------- pruning

  /** Topics that are gone are marked, and dropped if they count nothing. */
  function Pruned(c: Counters, exists': set<string>): Counters {
    c.(topics := map t | t in c.topics && (t in exists' || c.topics[t].stats != ZERO) ::
      Wrapper(c.topics[t].stats, t !in exists'))
  }

  lemma PruningKeeps(c: Counters, items: seq<Item>, exists': set<string>)
    requires Agrees(c, items)
    ensures Agrees(Pruned(c, exists'), items)
  {
  }

  /** An entry that may go is there only because it still counts something. */
  ghost predicate NoneStale(c: Counters) {
    forall t :: t in c.topics && c.topics[t].okToDelete ==> c.topics[t].stats != ZERO
  }

  /** Pruning marks exactly the topics that are gone, and erases exactly those of them that
      count nothing. */
  lemma PruningErases(c: Counters, exists': set<string>)
    ensures NoneStale(Pruned(c, exists'))
    ensures forall t :: t in Pruned(c, exists').topics ==>
      t in c.topics && (Pruned(c, exists').topics[t].okToDelete <==> t !in exists')
    ensures forall t :: t in c.topics && t !in Pruned(c, exists').topics ==> t !in exists' && c.topics[t].stats == ZERO
  {
  }

  /** Updates erase an entry as soon as it may go and counts nothing, and erase no other. */
  lemma UpdatesErase(c: Counters, topic: string, d: Delta)
    requires NoneStale(c)
    ensures NoneStale(Apply(c, topic, d))
    ensures forall t :: t in c.topics && t !in Apply(c, topic, d).topics ==> t == topic && c.topics[t].okToDelete
    ensures forall t :: t in c.topics && t in Apply(c, topic, d).topics ==>
      Apply(c, topic, d).topics[t].okToDelete == c.topics[t].okToDelete
  {
  }

  lemma NewKeeps(c: Counters, items: seq<Item>, topic: string)
    requires Agrees(c, items)
    ensures Agrees(c.(newCount := c.newCount + 1), items + [Item(topic, New)])
  {
    var items' := items + [Item(topic, New)];
    assert items'[..|items|] == items;
    forall t ensures StatsOf(c.(newCount := c.newCount + 1), t) == CountStats(items', t) {
      assert StatsOf(c.(newCount := c.newCount + 1), t) == StatsOf(c, t);
      assert Count(items', t, Batching) == Count(items, t, Batching);
      assert Count(items', t, SendWait) == Count(items, t, SendWait);
      assert Count(items', t, AckWait) == Count(items, t, AckWait);
    }
  }
}
