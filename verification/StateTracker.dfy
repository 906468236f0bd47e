/** The message state tracker, and runs of messages through their states. */
module StateTracker {
  import opened Sorting
  import opened TrackerStats

  class TrackedMsg {
    const topic: string
    var state: MsgState

    constructor (t: string)
      ensures topic == t && state == New
    {
      topic, state := t, New;
    }
  }

  class Tracker {
    var topicStats: map<string, Wrapper>
    var newCount: int

    ghost function Value(): Counters
      reads this
    {
      Counters(topicStats, newCount)
    }

    constructor ()
      ensures Value() == Counters(map[], 0)
    {
      topicStats, newCount := map[], 0;
    }

    method MsgEnterNew()
      modifies `newCount
      ensures Value() == old(Value()).(newCount := old(newCount) + 1)
    {
      newCount := newCount + 1;
    }

    method UpdateStats(topic: string, comp: Delta)
      modifies this
      ensures Value() == Apply(old(Value()), topic, comp)
    {
      var d := comp.stats;
      if d.batching != 0 || d.sendWait != 0 || d.ackWait != 0 {
        if topic !in topicStats {
          topicStats := topicStats[topic := Wrapper(ZERO, false)];
        }
        var w := topicStats[topic];
        topicStats := topicStats[topic := w.(stats := Plus(w.stats, d))];
        var stats := topicStats[topic].stats;
        if w.okToDelete && stats.batching == 0 && stats.sendWait == 0 && stats.ackWait == 0 {
          topicStats := topicStats - {topic};
        }
        assert topicStats - {topic} == old(topicStats) - {topic};
      }
      newCount := newCount + comp.newDelta;
    }

    /** MsgEnterBatching, MsgEnterSendWait, MsgEnterAckWait and MsgEnterProcessed for one
        message. */
    method MsgEnter(msg: TrackedMsg, to: MsgState)
      requires to != New
      modifies this, msg`state
      ensures msg.state == to
      ensures Value() == Apply(old(Value()), msg.topic, DeltaOf(old(msg.state), to))
    {
      var comp := DeltaOf(msg.state, to);
      msg.state := to;
      UpdateStats(msg.topic, comp);
    }

    /** The same for a list of messages.  The change of the whole list goes to the topic of
        its first message; the source asserts that they all have this topic. */
    method MsgEnterList(msgs: seq<TrackedMsg>, to: MsgState, ghost states: seq<MsgState>)
      requires NoDuplicates(msgs) && to != New && |states| == |msgs|
      requires forall i :: 0 <= i < |msgs| ==> msgs[i].state == states[i]
      modifies this, msgs
      ensures forall i :: 0 <= i < |msgs| ==> msgs[i].state == to
      ensures Value() == if msgs == [] then old(Value()) else Apply(old(Value()), msgs[0].topic, DeltaSum(states, to))
    {
      hide DeltaOf, DeltaSum, Apply;
      if msgs == [] {
        return;
      }
      SumNone(to);
      var topic := msgs[0].topic;
      var comp := NO_DELTA;
      for i := 0 to |msgs|
        invariant Value() == old(Value())
        invariant comp == DeltaSum(states[..i], to)
        invariant forall k :: 0 <= k < i ==> msgs[k].state == to
        invariant forall k :: i <= k < |msgs| ==> msgs[k].state == states[k]
      {
        assert states[..i + 1][..i] == states[..i];
        LastOfList(Value(), topic, states[..i + 1], to);
        comp := Sum(comp, DeltaOf(msgs[i].state, to));
        msgs[i].state := to;
      }
      assert states[..|msgs|] == states;
      UpdateStats(topic, comp);
    }

    method PruneTopics(topicExists: set<string>)
      modifies this
      ensures Value() == Pruned(old(Value()), topicExists)
    {
      var todo := topicStats.Keys;
      while todo != {}
        invariant newCount == old(newCount) && todo <= old(topicStats).Keys
        invariant topicStats == PrunedPart(old(topicStats), topicExists, todo)
        decreases todo
      {
        var t :| t in todo;
        var w := topicStats[t].(okToDelete := t !in topicExists);
        if w.okToDelete && w.stats == ZERO {
          topicStats := topicStats - {t};
        } else {
          topicStats := topicStats[t := w];
        }
        todo := todo - {t};
      }
    }

    /** Topics with something to report. */
    method GetStats() returns (result: map<string, Stats>, new': int)
      ensures new' == newCount
      ensures forall t :: t in result <==> StatsOf(Value(), t) != ZERO
      ensures forall t :: t in result ==> result[t] == StatsOf(Value(), t)
    {
      result := map t | t in topicStats && topicStats[t].stats != ZERO :: topicStats[t].stats;
      new' := newCount;
    }
  }

  // --------------------------------------------------------------------------- all runs

  datatype Op =
    | Create(topic: string)
    | Enter(i: nat, to: MsgState)
    | EnterList(idx: seq<nat>, listTo: MsgState)
    | Prune(topicExists: set<string>)

  /** The list calls that keep the counters right. */
  ghost predicate ListCallOk(items: seq<Item>, idx: seq<nat>, to: MsgState) {
    && (to == SendWait || to == AckWait || to == Processed)
    && AnyList(items, idx) && AllFit(Picked(items, idx), to)
    && (idx != [] ==> OthersIdle(Picked(items, idx), items[idx[0]].topic, to))
  }

  /** The messages after a call; calls that are not allowed do not happen. */
  ghost function After(items: seq<Item>, op: Op): seq<Item> {
    match op
    case Create(topic) => items + [Item(topic, New)]
    case Enter(i, to) => if i < |items| && to != New && Fits(items[i].state, to) then Moved(items, i, to) else items
    case EnterList(idx, to) => if ListCallOk(items, idx, to) then MovedAll(items, idx, to) else items
    case Prune(_) => items
  }

  ghost function AfterAll(items: seq<Item>, ops: seq<Op>): seq<Item> {
    if ops == [] then items else After(AfterAll(items, ops[..|ops| - 1]), ops[|ops| - 1])
  }

  /** The tracker with every message there is. */
  class World {
    const tracker: Tracker
    var msgs: seq<TrackedMsg>

    ghost var items: seq<Item>

    ghost predicate Matches()
      reads this, msgs
    {
      && NoDuplicates(msgs) && |items| == |msgs|
      && forall i :: 0 <= i < |items| ==> items[i] == Item(msgs[i].topic, msgs[i].state)
    }

    /** The counters are right, and topics that are gone do not linger. */
    ghost predicate Valid()
      reads this, msgs, tracker
    {
      Matches() && Agrees(tracker.Value(), items) && NoneStale(tracker.Value())
    }

    constructor ()
      ensures Valid() && msgs == [] && fresh(tracker)
    {
      tracker := new Tracker();
      msgs, items := [], [];
    }

    method DoCreate(topic: string)
      requires Valid()
      modifies `msgs, `items, tracker
      ensures Valid() && |msgs| == |old(msgs)| + 1 && msgs[..|old(msgs)|] == old(msgs) && fresh(msgs[|old(msgs)|])
      ensures items == old(items) + [Item(topic, New)]
    {
      hide Agrees;
      NewKeeps(tracker.Value(), items, topic);
      tracker.MsgEnterNew();
      var msg := new TrackedMsg(topic);
      msgs, items := msgs + [msg], items + [Item(topic, New)];
    }

    method DoEnter(i: nat, to: MsgState)
      requires Valid() && i < |msgs| && to != New && Fits(msgs[i].state, to)
      modifies `items, tracker, msgs[i]
      ensures Valid() && items == Moved(old(items), i, to)
    {
      hide Agrees, Fits, DeltaOf, Apply, NoneStale;
      LegalKeeps(tracker.Value(), items, i, to);
      UpdatesErase(tracker.Value(), msgs[i].topic, DeltaOf(msgs[i].state, to));
      tracker.MsgEnter(msgs[i], to);
      items := Moved(items, i, to);
    }

    method DoEnterList(idx: seq<nat>, to: MsgState)
      requires Valid() && ListCallOk(items, idx, to)
      modifies `items, tracker, msgs
      ensures Valid() && items == MovedAll(old(items), idx, to)
    {
      hide Agrees, DeltaSum, Apply, MovedAll, AllFit, OthersIdle, NoneStale;
      if idx != [] { ListIff(tracker.Value(), items, idx, to); }
      ListNone(tracker.Value(), items, "", to);
      if idx != [] { UpdatesErase(tracker.Value(), items[idx[0]].topic, DeltaSum(StatesOf(items, idx), to)); }
      var list := Pick(idx);
      tracker.MsgEnterList(list, to, StatesOf(items, idx));
      forall i | 0 <= i < |items| ensures MovedAll(items, idx, to)[i] == Item(msgs[i].topic, msgs[i].state) {
        MovedAllAt(items, idx, to, i);
        if i in idx {
          var k :| 0 <= k < |idx| && idx[k] == i;
          assert list[k] == msgs[i];
        } else {
          assert msgs[i] !in list;
        }
      }
      items := MovedAll(items, idx, to);
    }

    /** The messages of a list. */
    method Pick(idx: seq<nat>) returns (list: seq<TrackedMsg>)
      requires NoDuplicates(msgs) && NoDuplicates(idx) && forall k :: 0 <= k < |idx| ==> idx[k] < |msgs|
      ensures |list| == |idx| && NoDuplicates(list) && forall k :: 0 <= k < |idx| ==> list[k] == msgs[idx[k]]
    {
      list := [];
      for k := 0 to |idx|
        invariant |list| == k && forall j :: 0 <= j < k ==> list[j] == msgs[idx[j]]
      {
        list := list + [msgs[idx[k]]];
      }
    }

    method DoPrune(topicExists: set<string>)
      requires Valid()
      modifies tracker
      ensures Valid()
    {
      hide Agrees, Pruned, NoneStale;
      PruningKeeps(tracker.Value(), items, topicExists);
      PruningErases(tracker.Value(), topicExists);
      tracker.PruneTopics(topicExists);
    }

    /** Whether a list call is one of these. */
    method ListAllowed(idx: seq<nat>, to: MsgState) returns (ok: bool)
      requires Matches()
      ensures ok <==> ListCallOk(items, idx, to)
    {
      hide Fits, TrueDelta;
      ok := to == SendWait || to == AckWait || to == Processed;
      for k := 0 to |idx|
        invariant ok ==> to == SendWait || to == AckWait || to == Processed
        invariant !ok ==> !ListCallOk(items, idx, to)
        invariant ok ==> forall j :: 0 <= j < k ==>
          && idx[j] < |items| && idx[0] < |items| && Fits(items[idx[j]].state, to) && idx[j] !in idx[..j]
          && (items[idx[j]].topic == items[idx[0]].topic || TrueDelta(items[idx[j]].state, to) == ZERO)
      {
        if ListCallOk(items, idx, to) { ListCallAt(items, idx, to, k); }
        ok := ok && idx[k] < |msgs| && Fits(msgs[idx[k]].state, to) && idx[k] !in idx[..k];
        ok := ok && (msgs[idx[k]].topic == msgs[idx[0]].topic || TrueDelta(msgs[idx[k]].state, to) == ZERO);
      }
    }

    /** Over every run of calls that fit, interleaved with pruning, the counters are right. */
    method Run(ops: seq<Op>)
      requires Valid()
      modifies this, tracker, msgs
      ensures Valid() && items == AfterAll(old(items), ops)
    {
      hide Agrees, Fits, ListCallOk, NoneStale;
      for n := 0 to |ops|
        invariant Valid() && items == AfterAll(old(items), ops[..n])
        invariant forall i :: 0 <= i < |msgs| ==> msgs[i] in old(msgs) || fresh(msgs[i])
      {
        assert ops[..n + 1][..n] == ops[..n];
        match ops[n] {
          case Create(topic) => DoCreate(topic);
          case Enter(i, to) => if i < |msgs| && to != New && Fits(msgs[i].state, to) { DoEnter(i, to); }
          case EnterList(idx, to) =>
            var ok := ListAllowed(idx, to);
            if ok { DoEnterList(idx, to); }
          case Prune(topicExists) => DoPrune(topicExists);
        }
      }
      assert ops[..|ops|] == ops;
    }
  }

  lemma ListCallAt(items: seq<Item>, idx: seq<nat>, to: MsgState, k: nat)
    requires k < |idx| && ListCallOk(items, idx, to)
    ensures idx[0] < |items| && idx[k] < |items| && Fits(items[idx[k]].state, to) && idx[k] !in idx[..k]
    ensures items[idx[k]].topic == items[idx[0]].topic || TrueDelta(items[idx[k]].state, to) == ZERO
  {
    hide Fits, TrueDelta;
    assert Picked(items, idx)[k] in Picked(items, idx);
  }

  ghost function PrunedPart(topics: map<string, Wrapper>, topicExists: set<string>,
      todo: set<string>): map<string, Wrapper>
  {
    map t | t in topics && (t in todo || t in topicExists || topics[t].stats != ZERO) ::
      if t in todo then topics[t] else Wrapper(topics[t].stats, t !in topicExists)
  }
}
