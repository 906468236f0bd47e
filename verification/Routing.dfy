/** Where a message may be sent, and the groupings that routing makes on the way. */
module Routing {
  import opened Dispatching
  import opened KeyRouting
  import opened Messages
  import opened Metadata
  import opened Sorting

  // ------------------------------------------------------------------ good dispatches

  predicate HasOk(md: Metadata, topic: string) {
    FindTopicIndex(md, topic) >= 0 && md.topics[FindTopicIndex(md, topic)].ok != []
  }

  /** By what the metadata says, a topic can take messages when it is listed and has a
      partition that can be sent to. */
  lemma HasOkIff(md: Metadata, topic: string)
    requires Sane(md)
    ensures HasOk(md, topic) <==> topic in ViewOf(md).topics && ViewOf(md).topics[topic].ok != {}
  {
    hide ChoicesSane, CoverCount, LeadsOkPartition;
    if topic in md.topicIndex {
      SaneTopicIndex(md, topic);
      var ok := md.topics[md.topicIndex[topic]].ok;
      if ok != [] {
        assert ok[0] in ok;
        assert InfoOf(md.brokers, ok[0]) in ViewOf(md).topics[topic].ok;
      }
    }
  }

  function MetaOf(md: Metadata, topic: string): Topic
    requires FindTopicIndex(md, topic) >= 0
  {
    md.topics[FindTopicIndex(md, topic)]
  }

  /** An AnyPartition message may go to any broker that leads a usable partition of its
      topic. */
  ghost predicate AnyGoesTo(md: Metadata, topic: string, broker: nat) {
    HasOk(md, topic) && broker in BrokersOf(MetaOf(md, topic).ok)
  }

  /** A PartitionKey message goes to the broker of the partition chosen by its key, and
      carries that partition. */
  ghost predicate KeyGoesTo(md: Metadata, m: Msg, broker: nat) {
    && HasOk(md, m.topic)
    && HasLive(md.brokers, MetaOf(md, m.topic).all)
    && var p := ChosenPartition(md.brokers, MetaOf(md, m.topic).all, m.key);
       m.partition == p.id && broker == p.brokerIndex
  }

  ghost predicate MayGo(md: Metadata, m: Msg, broker: nat) {
    if m.routing.AnyPartition? then AnyGoesTo(md, m.topic, broker) else KeyGoesTo(md, m, broker)
  }

  ghost predicate GoodDispatch(md: Metadata, e: Dispatch) {
    && SingleTopic(e.batch)
    && e.broker < md.inServiceCount
    && forall i :: 0 <= i < |e.batch| ==> MayGo(md, e.batch[i], e.broker)
  }

  ghost predicate AllGood(md: Metadata, es: seq<Dispatch>) {
    forall e :: e in es ==> GoodDispatch(md, e)
  }

  lemma GoodInRange(md: Metadata, es: seq<Dispatch>)
    requires AllGood(md, es)
    ensures InRange(es, md.inServiceCount) && AllSingleTopic(Batches(es))
  {
    forall b | b in Batches(es) ensures SingleTopic(b) {
      var i :| 0 <= i < |es| && Batches(es)[i] == b;
      assert BatchOf(es[i]) == b && es[i] in es;
    }
  }

  /** The brokers that routing picks are the ones the dispatcher has threads for. */
  lemma OkBrokerInService(md: Metadata, topic: string, broker: nat)
    requires WellFormed(md) && AnyGoesTo(md, topic, broker)
    ensures broker < md.inServiceCount
  {
    hide CoverCount, ChoicesSane;
    SaneTopicIndex(md, topic);
    var p :| p in MetaOf(md, topic).ok && p.brokerIndex == broker;
    assert LeadsOkPartition(md.topics, broker);
  }

  lemma KeyBrokerInService(md: Metadata, m: Msg, broker: nat)
    requires WellFormed(md) && KeyGoesTo(md, m, broker)
    ensures broker < md.inServiceCount
  {
  }

  lemma KeyHasPlace(md: Metadata, topic: string)
    requires WellFormed(md) && HasOk(md, topic)
    ensures MetaOf(md, topic).all != [] && HasLive(md.brokers, MetaOf(md, topic).all)
  {
    SaneTopicIndex(md, topic);
    UsableTopicTakesKeys(md, topic);
  }

  // ----------------------------------------------------------------- dispatch entries

  function Entries(broker: nat, batches: seq<Batch>): seq<Dispatch> {
    seq(|batches|, i requires 0 <= i < |batches| => Dispatch(broker, batches[i]))
  }

  lemma EntriesBatches(broker: nat, batches: seq<Batch>)
    ensures Batches(Entries(broker, batches)) == batches
  {
    var es := Entries(broker, batches);
    forall i | 0 <= i < |es| ensures Batches(es)[i] == batches[i] {
      assert BatchOf(es[i]) == batches[i];
    }
  }

  lemma {:induction false} EnqueueEntries(queues: seq<Queue>, broker: nat, batches: seq<Batch>)
    requires broker < |queues|
    ensures InRange(Entries(broker, batches), |queues|)
    ensures EnqueueAll(queues, Entries(broker, batches)) ==
            queues[broker := queues[broker].(sendWait := queues[broker].sendWait + batches)]
  {
    if batches == [] {
      assert queues[broker].sendWait + batches == queues[broker].sendWait;
    } else {
      var n := |batches| - 1;
      EnqueueEntries(queues, broker, batches[..n]);
      assert Entries(broker, batches)[..n] == Entries(broker, batches[..n]);
      assert (queues[broker].sendWait + batches[..n]) + [batches[n]] == queues[broker].sendWait + batches;
    }
  }

  /** The planned dispatches to one broker, in order. */
  function ForBroker(plan: seq<Dispatch>, broker: nat): seq<Dispatch> {
    Having<Dispatch, nat>(plan, BrokerOf, broker)
  }

  ghost function ForBrokers(plan: seq<Dispatch>, brokers: set<nat>): seq<Dispatch> {
    Within<Dispatch, nat>(plan, BrokerOf, brokers)
  }

  lemma ForBrokersSplit(plan: seq<Dispatch>, brokers: set<nat>, b: nat)
    requires b in brokers
    ensures multiset(ForBrokers(plan, brokers)) ==
      multiset(ForBrokers(plan, brokers - {b})) + multiset(ForBroker(plan, b))
  {
    WithinSplit<Dispatch, nat>(plan, BrokerOf, brokers, b);
  }

  lemma ForBrokersEnds(plan: seq<Dispatch>, brokers: set<nat>)
    ensures ForBrokers(plan, {}) == []
    ensures (forall e :: e in plan ==> e.broker in brokers) ==> ForBrokers(plan, brokers) == plan
  {
    assert forall e: Dispatch :: BrokerOf(e) == e.broker;
    WithinEnds<Dispatch, nat>(plan, BrokerOf, brokers);
  }

  lemma ForBrokerSnoc(plan: seq<Dispatch>, e: Dispatch, b: nat)
    ensures ForBroker(plan + [e], b) == if e.broker == b then ForBroker(plan, b) + [e] else ForBroker(plan, b)
  {
  }

  lemma ForBrokerElements(plan: seq<Dispatch>, b: nat)
    ensures forall e :: e in ForBroker(plan, b) <==> e in plan && e.broker == b
  {
    HavingElements<Dispatch, nat>(plan, BrokerOf, b);
  }

  lemma HavingIsEntries(plan: seq<Dispatch>, broker: nat)
    ensures ForBroker(plan, broker) == Entries(broker, Batches(ForBroker(plan, broker)))
  {
    ForBrokerElements(plan, broker);
    var h := ForBroker(plan, broker);
    forall i | 0 <= i < |h| ensures h[i] == Dispatch(broker, Batches(h)[i]) {
      assert h[i] in h && BrokerOf(h[i]) == broker && BatchOf(h[i]) == h[i].batch;
    }
  }

  // -------------------------------------------------------------------- keyed messages

  /** A message with its partition recorded, on its way to a broker. */
  datatype Assigned = Assigned(broker: nat, msg: Msg)

  function AssignedTo(a: Assigned): nat {
    a.broker
  }

  function MsgOf(a: Assigned): Msg {
    a.msg
  }

  ghost predicate AssignsAll(md: Metadata, plan: seq<Assigned>, ms: seq<Msg>) {
    && Bodies(Mapped(MsgOf, plan)) == Bodies(ms)
    && forall a :: a in plan ==> a.msg.routing.PartitionKey? && KeyGoesTo(md, a.msg, a.broker)
  }

  lemma AssignOne(md: Metadata, plan: seq<Assigned>, ms: seq<Msg>, m: Msg, a: Assigned)
    requires AssignsAll(md, plan, ms) && Body(a.msg) == Body(m)
    requires a.msg.routing.PartitionKey? && KeyGoesTo(md, a.msg, a.broker)
    ensures AssignsAll(md, plan + [a], ms + [m])
  {
    hide KeyGoesTo;
    MappedConcat(MsgOf, plan, [a]);
    MappedConcat(Body, Mapped(MsgOf, plan), Mapped(MsgOf, [a]));
    MappedConcat(Body, ms, [m]);
    assert Mapped(Body, Mapped(MsgOf, [a])) == Mapped(Body, [m]);
  }

  function AssignedFor(plan: seq<Assigned>, broker: nat): seq<Assigned> {
    Having<Assigned, nat>(plan, AssignedTo, broker)
  }

  ghost function AssignedIn(plan: seq<Assigned>, brokers: set<nat>): seq<Assigned> {
    Within<Assigned, nat>(plan, AssignedTo, brokers)
  }

  /** The keyed messages of one broker, in order. */
  function MsgsFor(plan: seq<Assigned>, broker: nat): seq<Msg> {
    Mapped(MsgOf, AssignedFor(plan, broker))
  }

  ghost function MsgsIn(plan: seq<Assigned>, brokers: set<nat>): seq<Msg> {
    Mapped(MsgOf, AssignedIn(plan, brokers))
  }

  lemma MsgsForSnoc(plan: seq<Assigned>, a: Assigned, b: nat)
    ensures MsgsFor(plan + [a], b) == if a.broker == b then MsgsFor(plan, b) + [a.msg] else MsgsFor(plan, b)
  {
    HavingSnoc<Assigned, nat>(plan, a, AssignedTo, b);
    MappedConcat(MsgOf, AssignedFor(plan, b), [a]);
    assert MsgOf(a) == a.msg;
    assert Mapped(MsgOf, [a]) == [a.msg];
  }

  lemma MsgsForNone(plan: seq<Assigned>, b: nat)
    requires forall a :: a in plan ==> a.broker != b
    ensures MsgsFor(plan, b) == []
  {
    HavingElements<Assigned, nat>(plan, AssignedTo, b);
    NoElements(AssignedFor(plan, b));
  }

  lemma MsgsForElements(plan: seq<Assigned>, b: nat)
    ensures forall m :: m in MsgsFor(plan, b) ==> Assigned(b, m) in plan
  {
    HavingElements<Assigned, nat>(plan, AssignedTo, b);
    var h := AssignedFor(plan, b);
    forall m | m in MsgsFor(plan, b) ensures Assigned(b, m) in plan {
      var i :| 0 <= i < |h| && MsgsFor(plan, b)[i] == m;
      assert h[i] in h && MsgOf(h[i]) == m && AssignedTo(h[i]) == b;
    }
  }

  lemma MsgsInSplit(plan: seq<Assigned>, brokers: set<nat>, b: nat)
    requires b in brokers
    ensures multiset(MsgsIn(plan, brokers)) == multiset(MsgsIn(plan, brokers - {b})) + multiset(MsgsFor(plan, b))
  {
    WithinSplit<Assigned, nat>(plan, AssignedTo, brokers, b);
    hide Having, Within;
    var whole, rest, own := AssignedIn(plan, brokers), AssignedIn(plan, brokers - {b}), AssignedFor(plan, b);
    assert multiset(whole) == multiset(rest + own);
    MappedPermuted(MsgOf, whole, rest + own);
    MappedConcat(MsgOf, rest, own);
  }

  lemma MsgsInEnds(plan: seq<Assigned>, brokers: set<nat>)
    ensures MsgsIn(plan, {}) == []
    ensures (forall a :: a in plan ==> a.broker in brokers) ==> MsgsIn(plan, brokers) == Mapped(MsgOf, plan)
  {
    assert forall a: Assigned :: AssignedTo(a) == a.broker;
    WithinEnds<Assigned, nat>(plan, AssignedTo, brokers);
  }

  // -------------------------------------------------------------------------- by topic

  /** TTopicMap: messages put in one at a time come out grouped by topic, each group in
      the order its messages went in. */
  method GroupByTopic(ms: seq<Msg>) returns (groups: seq<Batch>)
    ensures forall b: Batch :: b in groups ==> SingleTopic(b) && b == Having(ms, TopicOf, b[0].topic)
    ensures multiset(Flat(groups)) == multiset(ms)
  {
    hide Having, Within, Flat;
    var topicHash := FillTopicHash(ms);
    FlatEmpty();
    groups := [];
    var todo := topicHash.Keys;
    WithinEnds(ms, TopicOf, todo);
    while todo != {}
      invariant todo <= topicHash.Keys
      invariant forall b: Batch :: b in groups ==> SingleTopic(b) && b == Having(ms, TopicOf, b[0].topic)
      invariant multiset(Flat(groups)) + multiset(Within(ms, TopicOf, todo)) == multiset(ms)
      decreases todo
    {
      var t :| t in todo;
      WithinSplit(ms, TopicOf, todo, t);
      HavingElements(ms, TopicOf, t);
      FlatSnoc(groups, topicHash[t]);
      GroupIsSingle(ms, t);
      groups := groups + [topicHash[t]];
      todo := todo - {t};
    }
    WithinEnds(ms, TopicOf, {});
  }

  method FillTopicHash(ms: seq<Msg>) returns (topicHash: map<string, seq<Msg>>)
    ensures forall t :: t in topicHash <==> exists m :: m in ms && m.topic == t
    ensures forall t :: t in topicHash ==> topicHash[t] == Having(ms, TopicOf, t)
  {
    topicHash := map[];
    for i := 0 to |ms|
      invariant HashHolds(topicHash, ms[..i])
    {
      hide HashHolds;
      HashStep(topicHash, ms[..i], ms[i]);
      assert ms[..i + 1] == ms[..i] + [ms[i]];
      var t := ms[i].topic;
      topicHash := topicHash[t := (if t in topicHash then topicHash[t] else []) + [ms[i]]];
    }
    assert ms[..|ms|] == ms;
    hide Having;
  }

  ghost predicate HashHolds(topicHash: map<string, seq<Msg>>, ms: seq<Msg>) {
    && (forall t :: t in topicHash <==> exists m :: m in ms && m.topic == t)
    && (forall t :: t in topicHash ==> topicHash[t] == Having(ms, TopicOf, t))
  }

  lemma HashStep(topicHash: map<string, seq<Msg>>, ms: seq<Msg>, m: Msg)
    requires HashHolds(topicHash, ms)
    ensures HashHolds(topicHash[m.topic := (if m.topic in topicHash then topicHash[m.topic] else []) + [m]], ms + [m])
  {
    hide Having;
    var hash := topicHash[m.topic := (if m.topic in topicHash then topicHash[m.topic] else []) + [m]];
    forall t ensures t in hash <==> exists x :: x in ms + [m] && x.topic == t {
      if t in topicHash {
        var x :| x in ms && x.topic == t;
        assert x in ms + [m];
      } else if t == m.topic {
        assert m in ms + [m];
      }
    }
    forall t | t in hash ensures hash[t] == Having(ms + [m], TopicOf, t) {
      HavingSnoc(ms, m, TopicOf, t);
      if t !in topicHash { NoneHaving(ms, t); }
    }
  }

  lemma FlatEmpty()
    ensures Flat([]) == []
  {
  }

  lemma NoneHaving(ms: seq<Msg>, t: string)
    requires !exists m :: m in ms && m.topic == t
    ensures Having(ms, TopicOf, t) == []
  {
  }

  lemma GroupIsSingle(ms: seq<Msg>, t: string)
    requires exists m :: m in ms && m.topic == t
    ensures SingleTopic(Having(ms, TopicOf, t)) && Having(ms, TopicOf, t)[0].topic == t
  {
    HavingElements(ms, TopicOf, t);
    var h := Having(ms, TopicOf, t);
    assert forall i :: 0 <= i < |h| ==> h[i] in h;
    var m :| m in ms && m.topic == t;
    assert m in h;
  }

  lemma FlatSnoc(groups: seq<Batch>, b: Batch)
    ensures Flat(groups + [b]) == Flat(groups) + b
  {
  }

  // ------------------------------------------------------------------ by routing type

  function RoutingOf(m: Msg): RoutingType {
    m.routing
  }

  ghost function AnyPart(batch: Batch): Batch {
    Having(batch, RoutingOf, RoutingType.AnyPartition)
  }

  ghost function KeyPart(batch: Batch): Batch {
    Having(batch, RoutingOf, RoutingType.PartitionKey)
  }

  /** Takes the PartitionKey messages out of a batch, keeping both orders. */
  method SplitBatch(batch: Batch) returns (any: Batch, keyed: Batch)
    ensures any == AnyPart(batch) && keyed == KeyPart(batch)
  {
    any, keyed := [], [];
    for i := 0 to |batch|
      invariant any == AnyPart(batch[..i]) && keyed == KeyPart(batch[..i])
    {
      HavingSnoc(batch[..i], batch[i], RoutingOf, RoutingType.AnyPartition);
      HavingSnoc(batch[..i], batch[i], RoutingOf, RoutingType.PartitionKey);
      assert batch[..i + 1] == batch[..i] + [batch[i]];
      if batch[i].routing.PartitionKey? {
        keyed := keyed + [batch[i]];
      } else {
        any := any + [batch[i]];
      }
    }
    assert batch[..|batch|] == batch;
  }

  /** Splitting by routing type loses nothing. */
  lemma SplitCounts(batch: Batch)
    ensures multiset(batch) == multiset(AnyPart(batch)) + multiset(KeyPart(batch))
  {
    hide Having, Within;
    var any, key := RoutingType.AnyPartition, RoutingType.PartitionKey;
    forall m | m in batch ensures RoutingOf(m) in {any, key} {
      assert m.routing == any || m.routing == key;
    }
    WithinEnds(batch, RoutingOf, {any, key});
    WithinSplit(batch, RoutingOf, {any, key}, any);
    assert {any, key} - {any} == {key};
    WithinSplit(batch, RoutingOf, {key}, key);
    assert {key} - {key} == {};
  }

  lemma SplitBag(batch: Batch)
    ensures Bag(AnyPart(batch)) + Bag(KeyPart(batch)) == Bag(batch)
  {
    hide AnyPart, KeyPart, Bag;
    var any, keyed := AnyPart(batch), KeyPart(batch);
    SplitCounts(batch);
    assert multiset(any + keyed) == multiset(batch);
    BagPermuted(any + keyed, batch);
    BagConcat(any, keyed);
  }

  lemma SplitElements(batch: Batch)
    requires SingleTopic(batch)
    ensures forall m :: m in AnyPart(batch) ==> m.topic == batch[0].topic && m.routing.AnyPartition?
    ensures forall m :: m in KeyPart(batch) ==> m.topic == batch[0].topic && m.routing.PartitionKey?
  {
    HavingElements(batch, RoutingOf, RoutingType.AnyPartition);
    HavingElements(batch, RoutingOf, RoutingType.PartitionKey);
  }

  // ------------------------------------------------------------------------ rerouting

  /** The batches that the current metadata can still take, and those it cannot. */
  ghost function Usable(md: Metadata, batches: seq<Batch>): seq<Batch>
    requires AllSingleTopic(batches)
  {
    if batches == [] then []
    else
      var n := |batches| - 1;
      assert batches[n] in batches;
      Usable(md, batches[..n]) + if HasOk(md, batches[n][0].topic) then [batches[n]] else []
  }

  ghost function Rejected(md: Metadata, batches: seq<Batch>): seq<Batch>
    requires AllSingleTopic(batches)
  {
    if batches == [] then []
    else
      var n := |batches| - 1;
      assert batches[n] in batches;
      Rejected(md, batches[..n]) + if HasOk(md, batches[n][0].topic) then [] else [batches[n]]
  }

  ghost function NonEmpty(batch: Batch): seq<Batch> {
    if batch == [] then [] else [batch]
  }

  ghost function AnyBatches(batches: seq<Batch>): seq<Batch> {
    if batches == [] then []
    else AnyBatches(batches[..|batches| - 1]) + NonEmpty(AnyPart(batches[|batches| - 1]))
  }

  ghost function KeyBatches(batches: seq<Batch>): seq<Batch> {
    if batches == [] then []
    else KeyBatches(batches[..|batches| - 1]) + NonEmpty(KeyPart(batches[|batches| - 1]))
  }

  lemma NonEmptyBag(batch: Batch)
    ensures BatchBag(NonEmpty(batch)) == Bag(batch)
  {
    if batch == [] {
      assert Flat(NonEmpty(batch)) == [];
    } else {
      BatchBagOne(batch);
    }
  }

  lemma BatchBagLast(batches: seq<Batch>)
    requires batches != []
    ensures BatchBag(batches) == BatchBag(batches[..|batches| - 1]) + Bag(batches[|batches| - 1])
  {
    var n := |batches| - 1;
    assert batches == batches[..n] + [batches[n]];
    BatchBagConcat(batches[..n], [batches[n]]);
    BatchBagOne(batches[n]);
  }

  lemma {:induction false} PartsBag(batches: seq<Batch>)
    ensures BatchBag(AnyBatches(batches)) + BatchBag(KeyBatches(batches)) == BatchBag(batches)
  {
    if batches == [] {
      EmptyBag();
    } else {
      hide BatchBag, Bag, AnyPart, KeyPart, NonEmpty;
      var n := |batches| - 1;
      var last := batches[n];
      var any, keyed := AnyBatches(batches[..n]), KeyBatches(batches[..n]);
      PartsBag(batches[..n]);
      BatchBagLast(batches);
      BatchBagConcat(any, NonEmpty(AnyPart(last)));
      BatchBagConcat(keyed, NonEmpty(KeyPart(last)));
      NonEmptyBag(AnyPart(last));
      NonEmptyBag(KeyPart(last));
      SplitBag(last);
      Regroup(BatchBag(any), BatchBag(keyed), Bag(AnyPart(last)), Bag(KeyPart(last)));
    }
  }

  lemma Regroup<T>(a: multiset<T>, k: multiset<T>, x: multiset<T>, y: multiset<T>)
    ensures (a + x) + (k + y) == (a + k) + (x + y)
  {
  }

  lemma BatchBagMore(a: seq<Batch>, b: seq<Batch>, last: Batch)
    ensures BatchBag(a + [last]) + BatchBag(b) == BatchBag(a) + BatchBag(b) + Bag(last)
    ensures BatchBag(a) + BatchBag(b + [last]) == BatchBag(a) + BatchBag(b) + Bag(last)
  {
    hide BatchBag, Bag;
    BatchBagOne(last);
    BatchBagConcat(a, [last]);
    BatchBagConcat(b, [last]);
    Regroup(BatchBag(a), BatchBag(b), Bag(last), multiset{});
    Regroup(BatchBag(a), BatchBag(b), multiset{}, Bag(last));
  }

  lemma {:induction false} RejectedBag(md: Metadata, batches: seq<Batch>)
    requires AllSingleTopic(batches)
    ensures BatchBag(Usable(md, batches)) + BatchBag(Rejected(md, batches)) == BatchBag(batches)
  {
    if batches == [] {
      EmptyBag();
    } else {
      hide BatchBag, Bag, HasOk, SingleTopic;
      var n := |batches| - 1;
      var last := batches[n];
      SplitLast(md, batches);
      var usable, rejected := Usable(md, batches[..n]), Rejected(md, batches[..n]);
      hide Usable, Rejected;
      RejectedBag(md, batches[..n]);
      BatchBagLast(batches);
      BatchBagMore(usable, rejected, last);
    }
  }

  lemma SplitLast(md: Metadata, batches: seq<Batch>)
    requires AllSingleTopic(batches) && batches != []
    ensures
      var n := |batches| - 1;
      && AllSingleTopic(batches[..n]) && SingleTopic(batches[n])
      && if HasOk(md, batches[n][0].topic) then
        && Usable(md, batches) == Usable(md, batches[..n]) + [batches[n]]
        && Rejected(md, batches) == Rejected(md, batches[..n])
      else
        && Usable(md, batches) == Usable(md, batches[..n])
        && Rejected(md, batches) == Rejected(md, batches[..n]) + [batches[n]]
  {
    hide HasOk;
    assert batches[|batches| - 1] in batches;
  }
}
