/** The router thread as a state machine over its metadata, the batcher and the
    dispatcher's queues, with topic autocreation off. */
module Router {
  import opened Accounting
  import opened BatchLimits
  import opened Batching
  import opened BrokerMerge
  import opened Dispatching
  import opened KeyRouting
  import opened Messages
  import opened Metadata
  import opened MetadataCompare
  import opened Options
  import opened RoundRobin
  import opened Routing
  import opened Sorting

  /** Resizing a counter vector keeps what fits and fills up with zeros. */
  function Resized(counters: seq<nat>, size: nat): (r: seq<nat>)
    ensures |r| == size
  {
    seq(size, i requires 0 <= i < size => if i < |counters| then counters[i] else 0)
  }

  ghost predicate TopicsUsable(md: Metadata, m: BatchMap) {
    forall t :: t in m ==> HasOk(md, t)
  }

  ghost predicate TmpEmpty(tmp: map<nat, seq<Batch>>, brokerCount: nat) {
    forall b :: b in tmp ==> b < brokerCount && tmp[b] == []
  }

  /** A batch list that RouteAnyPartitionNow may be given. */
  ghost predicate AnyRoutable(md: Metadata, batches: seq<Batch>) {
    forall i :: 0 <= i < |batches| ==>
      && SingleTopic(batches[i]) && HasOk(md, batches[i][0].topic)
      && forall j :: 0 <= j < |batches[i]| ==> batches[i][j].routing.AnyPartition?
  }

  /** A batch list that RoutePartitionKeyNow may be given. */
  ghost predicate KeyRoutable(md: Metadata, batches: seq<Batch>) {
    forall i :: 0 <= i < |batches| ==>
      && SingleTopic(batches[i]) && HasOk(md, batches[i][0].topic)
      && forall j :: 0 <= j < |batches[i]| ==> batches[i][j].routing.PartitionKey?
  }

  /** Why ValidateNewMsg turns a message away. */
  datatype DiscardReason = BadTopic | LongMsg | NoAvailablePartitions | RateLimit

  /** What is configured: whether there is a batcher and its limits, and how large a message
      may be. */
  datatype Settings = Settings(batching: bool, batchConf: BatchConf, singleMsgOverhead: nat, messageMaxBytes: nat)

  /** A message from the input channel, with what the rate limiter says about it. */
  datatype Arrival = Arrival(msg: Msg, rateLimited: bool)

  function ArrivalMsg(a: Arrival): Msg {
    a.msg
  }

  /** Cut off on arrival, or too large for any message set. */
  ghost predicate TooLong(conf: Settings, msg: Msg) {
    msg.truncated || msg.bodySize + conf.singleMsgOverhead > conf.messageMaxBytes
  }

  ghost predicate Acceptable(md: Metadata, conf: Settings, a: Arrival) {
    HasOk(md, a.msg.topic) && !TooLong(conf, a.msg) && !a.rateLimited
  }

  /** No batch takes the message. */
  ghost predicate GoesAlone(conf: Settings, msg: Msg) {
    || msg.routing.PartitionKey? || !conf.batching
    || (msg.topic in conf.batchConf.topics && !BatchingIsEnabled(conf.batchConf.topics[msg.topic]))
    || (msg.topic !in conf.batchConf.topics && !BatchingIsEnabled(conf.batchConf.defaultTopic))
  }

  /** The arrivals that ValidateNewMsg turns away, in order. */
  ghost function TurnedAway(md: Metadata, conf: Settings, arrivals: seq<Arrival>): seq<Msg> {
    if arrivals == [] then []
    else
      var last := arrivals[|arrivals| - 1];
      TurnedAway(md, conf, arrivals[..|arrivals| - 1]) + if Acceptable(md, conf, last) then [] else [last.msg]
  }

  /** The accepted arrivals that no batch takes, in order. */
  ghost function RoutedAlone(md: Metadata, conf: Settings, arrivals: seq<Arrival>): seq<Msg> {
    if arrivals == [] then []
    else
      var last := arrivals[|arrivals| - 1];
      RoutedAlone(md, conf, arrivals[..|arrivals| - 1])
      + if Acceptable(md, conf, last) && GoesAlone(conf, last.msg) then [last.msg] else []
  }

  /** The accepted arrivals that join batches, in order. */
  ghost function Joined(md: Metadata, conf: Settings, arrivals: seq<Arrival>): seq<Msg> {
    if arrivals == [] then []
    else
      var last := arrivals[|arrivals| - 1];
      Joined(md, conf, arrivals[..|arrivals| - 1])
      + if Acceptable(md, conf, last) && !GoesAlone(conf, last.msg) then [last.msg] else []
  }

  /** The batcher is asked about the message, and looks for batches that are due. */
  ghost predicate Offered(md: Metadata, conf: Settings, a: Arrival) {
    Acceptable(md, conf, a) && a.msg.routing.AnyPartition? && conf.batching
  }

  /** What the batcher has made of the arrivals: each topic's messages in order, each batch
      out for a reason, and no batch left that should be out. */
  ghost predicate BatchedAsDue(md: Metadata, conf: Settings, m0: BatchMap, m: BatchMap, ready: seq<Batch>,
      arrivals: seq<Arrival>, now: int)
  {
    var joined := Joined(md, conf, arrivals);
    && TopicsInOrder(m0, m, ready, joined)
    && AllJustified(conf.batchConf, ready, joined, now)
    && NoneFull(conf.batchConf, m)
    && ((exists a :: a in arrivals && Offered(md, conf, a)) ==> NoneDue(conf.batchConf, m, now))
  }

  /** What can happen to the router. */
  datatype Event =
    | MsgsAvailable(arrivals: seq<Arrival>, now: int)
    | BatchExpiry(now: int)
    | Pause(meta: Metadata)
    | Refresh(meta: Metadata, compare: bool)
    | Progress(queues: seq<Queue>, dropped: seq<Msg>, done: seq<Msg>)

  /** The dispatcher may regroup and reorder what it holds, finish messages and give up on
      them, as long as batches stay single topic and it accounts for every message. */
  predicate CanProgress(queues: seq<Queue>, queues': seq<Queue>, dropped: seq<Msg>, done: seq<Msg>) {
    && |queues'| == |queues|
    && AllSingleTopic(HeldBatches(queues'))
    && BatchBag(HeldBatches(queues')) + Bag(dropped) + Bag(done) == BatchBag(HeldBatches(queues))
  }

  ghost predicate LegalEvent(e: Event) {
    match e
    case Pause(meta) => WellFormed(meta)
    case Refresh(meta, _) => WellFormed(meta)
    case _ => true
  }

  ghost predicate LegalEvents(events: seq<Event>) {
    forall i :: 0 <= i < |events| ==> LegalEvent(events[i])
  }

  /** The batches of topics that still have a usable partition. */
  ghost function StillUsable(m: BatchMap, md: Metadata): BatchMap {
    map t | t in m && HasOk(md, t) :: m[t]
  }

  ghost predicate AllHaveOk(md: Metadata, ms: seq<Msg>) {
    forall i :: 0 <= i < |ms| ==> HasOk(md, ms[i].topic)
  }

  class Router {
    const conf: Settings

    var metadata: Metadata
    var routeCounters: seq<nat>
    var batchMap: BatchMap
    var tmpBrokerMap: map<nat, seq<Batch>>

    /** The dispatcher's queues, one per in-service broker. */
    var queues: seq<Queue>

    /** Messages reported to the anomaly tracker as discarded, and as possible
        duplicates; messages the dispatcher is done with. */
    var discarded: seq<Msg>
    var duplicates: seq<Msg>
    var finished: seq<Msg>

    /** A Die call, or a dispatch to a broker the dispatcher does not have. */
    var faulted: bool

    /** Every message ever taken from the input channel. */
    ghost var received: multiset<Msg>

    ghost predicate CanRoute()
      reads `metadata, `routeCounters, `tmpBrokerMap, `queues, `faulted
    {
      && WellFormed(metadata)
      && |routeCounters| == |metadata.topics|
      && TmpEmpty(tmpBrokerMap, metadata.inServiceCount)
      && |queues| == metadata.inServiceCount
      && AllSingleTopic(HeldBatches(queues))
      && !faulted
    }

    // ----------------------------------------------------------------- choosing brokers

    method ChooseAnyPartitionBrokerIndex(topic: string) returns (broker: nat)
      requires |routeCounters| == |metadata.topics|
      modifies `routeCounters, `faulted
      ensures |routeCounters| == |metadata.topics|
      ensures HasOk(metadata, topic) ==>
        var k, ok := FindTopicIndex(metadata, topic), MetaOf(metadata, topic).ok;
        && faulted == old(faulted)
        && routeCounters == old(routeCounters)[k := Bumped(old(routeCounters)[k])]
        && broker == ok[routeCounters[k] % |ok|].brokerIndex
        && AnyGoesTo(metadata, topic, broker)
      ensures !HasOk(metadata, topic) ==> faulted
    {
      var k := FindTopicIndex(metadata, topic);
      if k < 0 {
        faulted := true;
        return 0;
      }
      var ok := metadata.topics[k].ok;
      if ok == [] {
        faulted := true;
        return 0;
      }
      routeCounters := routeCounters[k := Bumped(routeCounters[k])];
      var p := ok[routeCounters[k] % |ok|];
      assert p in ok;
      return p.brokerIndex;
    }

    /** The key's partition; dies if there is none. */
    method ChooseByKey(topic: string, key: int) returns (p: Partition)
      requires WellFormed(metadata)
      modifies `faulted
      ensures HasOk(metadata, topic) ==>
        && faulted == old(faulted)
        && HasLive(metadata.brokers, MetaOf(metadata, topic).all)
        && p == ChosenPartition(metadata.brokers, MetaOf(metadata, topic).all, key)
    {
      if HasOk(metadata, topic) { KeyHasPlace(metadata, topic); }
      var k := FindTopicIndex(metadata, topic);
      p := Partition(0, 0, 0);
      if k < 0 || metadata.topics[k].all == [] {
        faulted := true;
        return;
      }
      var r, _ := ChoosePartitionByKey(metadata.brokers, metadata.topics[k].all, key);
      if r.None? {
        faulted := true;
        return;
      }
      p := r.value;
    }

    // -------------------------------------------------------------------- dispatching

    method DispatchNow(batches: seq<Batch>, broker: nat)
      modifies `queues, `discarded, `faulted
      ensures broker < |old(queues)| ==>
        && InRange(Entries(broker, batches), |old(queues)|)
        && queues == EnqueueAll(old(queues), Entries(broker, batches))
        && discarded == old(discarded) && faulted == old(faulted)
      ensures broker >= |old(queues)| && batches != [] ==> faulted
    {
      if batches == [] {
        if broker < |queues| { EnqueueEntries(queues, broker, batches); }
        return;
      }
      if broker >= |queues| {
        faulted := true;
        discarded := discarded + Flat(batches);
        return;
      }
      EnqueueEntries(queues, broker, batches);
      queues := queues[broker := queues[broker].(sendWait := queues[broker].sendWait + batches)];
    }

    /** AnyPartition batches stay whole; each goes to a broker leading a usable partition
        of its topic. */
    method RouteAnyPartitionNow(batchList: seq<Batch>) returns (ghost sent: seq<Dispatch>)
      requires CanRoute() && AnyRoutable(metadata, batchList)
      modifies `routeCounters, `tmpBrokerMap, `queues, `discarded, `faulted
      ensures CanRoute() && discarded == old(discarded)
      ensures AllGood(metadata, sent) && InRange(sent, |old(queues)|)
      ensures queues == EnqueueAll(old(queues), sent)
      ensures multiset(Batches(sent)) == multiset(batchList)
    {
      hide WellFormed, HeldBatches, AllGood, AnyRoutable, TmpHolds, TmpEmpty, EnqueueAll;
      sent := [];
      if batchList == [] {
        NothingSent(queues);
        assert AllGood(metadata, []) by { NoneGood(metadata); }
        return;
      }
      ghost var plan := MapToBrokers(batchList);
      sent := DispatchTmp(plan);
      MappedPermuted(BatchOf, sent, plan);
      GoodInRange(metadata, sent);
      EnqueueAllBag(old(queues), sent);
    }

    /** First loop of RouteAnyPartitionNow. */
    method MapToBrokers(batchList: seq<Batch>) returns (ghost plan: seq<Dispatch>)
      requires CanRoute() && AnyRoutable(metadata, batchList)
      modifies `routeCounters, `tmpBrokerMap, `faulted
      ensures |routeCounters| == |metadata.topics| && !faulted
      ensures Batches(plan) == batchList && AllGood(metadata, plan)
      ensures TmpHolds(tmpBrokerMap, metadata.inServiceCount, plan)
    {
      hide WellFormed, HeldBatches, TmpEmpty, TmpHolds, AllGood, GoodDispatch, AnyRoutable, HasOk;
      plan := [];
      NothingSent(queues);
      NoneGood(metadata);
      TmpHoldsNothing(tmpBrokerMap, metadata.inServiceCount);
      for i := 0 to |batchList|
        invariant |routeCounters| == |metadata.topics| && !faulted
        invariant Batches(plan) == batchList[..i] && AllGood(metadata, plan)
        invariant TmpHolds(tmpBrokerMap, metadata.inServiceCount, plan)
      {
        var batch := batchList[i];
        assert SingleTopic(batch) && HasOk(metadata, batch[0].topic) by { RoutableBatch(metadata, batchList, i); }
        var broker := ChooseAnyPartitionBrokerIndex(batch[0].topic);
        ghost var e := Dispatch(broker, batch);
        assert GoodDispatch(metadata, e) && broker < metadata.inServiceCount by {
          RoutableBatch(metadata, batchList, i);
          AnyBatchGood(metadata, e);
        }
        OneGood(metadata, e);
        GoodConcat(metadata, plan, [e]);
        TmpGrows(tmpBrokerMap, metadata.inServiceCount, plan, e);
        assert batchList[..i + 1] == batchList[..i] + [batch];
        BatchesSnoc(plan, e);
        plan := plan + [e];
        tmpBrokerMap := tmpBrokerMap[broker := (if broker in tmpBrokerMap then tmpBrokerMap[broker] else []) + [batch]];
      }
      assert batchList[..|batchList|] == batchList;
    }

    /** Second loop of RouteAnyPartitionNow. */
    method DispatchTmp(ghost plan: seq<Dispatch>) returns (ghost sent: seq<Dispatch>)
      requires |queues| == metadata.inServiceCount && !faulted
      requires AllGood(metadata, plan) && TmpHolds(tmpBrokerMap, metadata.inServiceCount, plan)
      modifies `tmpBrokerMap, `queues, `discarded, `faulted
      ensures TmpEmpty(tmpBrokerMap, metadata.inServiceCount)
      ensures !faulted && discarded == old(discarded)
      ensures multiset(sent) == multiset(plan) && AllGood(metadata, sent) && InRange(sent, |old(queues)|)
      ensures queues == EnqueueAll(old(queues), sent)
    {
      hide AllGood, EnqueueAll, ForBroker, ForBrokers, InRange, TmpTodo;
      sent := [];
      NothingSent(queues);
      var todo := tmpBrokerMap.Keys;
      ForBrokersEnds(plan, todo);
      TmpAllTodo(tmpBrokerMap, metadata.inServiceCount, plan);
      while todo != {}
        invariant TmpTodo(tmpBrokerMap, todo, metadata.inServiceCount, plan)
        invariant multiset(sent) + multiset(ForBrokers(plan, todo)) == multiset(plan)
        invariant !faulted && discarded == old(discarded)
        invariant InRange(sent, |old(queues)|) && queues == EnqueueAll(old(queues), sent)
        decreases todo
      {
        var b :| b in todo;
        ghost var group := ForBroker(plan, b);
        TmpStep(tmpBrokerMap, todo, metadata.inServiceCount, plan, b);
        ForBrokersSplit(plan, todo, b);
        if tmpBrokerMap[b] != [] {
          DispatchNow(tmpBrokerMap[b], b);
          EnqueueMore(old(queues), sent, group);
          sent := sent + group;
        }
        tmpBrokerMap := tmpBrokerMap[b := []];
        todo := todo - {b};
      }
      ForBrokersEnds(plan, {});
      TmpNoneTodo(tmpBrokerMap, metadata.inServiceCount, plan);
      PermutedGood(metadata, sent, plan);
    }

    /** Every keyed message is dispatched once, to the broker of the partition that its
        key selects and that is recorded on it; messages of one topic and broker keep their
        order. */
    method RoutePartitionKeyNow(batchList: seq<Batch>) returns (ghost sent: seq<Dispatch>, ghost plan: seq<Assigned>)
      requires CanRoute() && KeyRoutable(metadata, batchList)
      modifies `queues, `discarded, `faulted
      ensures CanRoute() && discarded == old(discarded)
      ensures AllGood(metadata, sent) && InRange(sent, |old(queues)|)
      ensures queues == EnqueueAll(old(queues), sent)
      ensures AssignsAll(metadata, plan, Flat(batchList))
      ensures forall e :: e in sent ==> KeepsKeyOrder(plan, e)
      ensures BatchBag(Batches(sent)) == BatchBag(batchList)
    {
      hide WellFormed, HeldBatches, EnqueueAll, AllGood, Flat;
      var brokerMap;
      brokerMap, plan := AssignBrokers(batchList);
      sent := DispatchKeyed(brokerMap, plan, Flat(batchList));
      GoodInRange(metadata, sent);
      EnqueueAllBag(old(queues), sent);
    }

    /** First loops of RoutePartitionKeyNow. */
    method AssignBrokers(batchList: seq<Batch>) returns (brokerMap: map<nat, seq<Msg>>, ghost plan: seq<Assigned>)
      requires WellFormed(metadata) && KeyRoutable(metadata, batchList) && !faulted
      modifies `faulted
      ensures !faulted
      ensures AssignsAll(metadata, plan, Flat(batchList))
      ensures KeyMapHolds(brokerMap, metadata.inServiceCount, plan)
    {
      hide WellFormed, Flat;
      brokerMap, plan := map[], [];
      FlatNil();
      for i := 0 to |batchList|
        invariant !faulted
        invariant AssignsAll(metadata, plan, Flat(batchList[..i]))
        invariant KeyMapHolds(brokerMap, metadata.inServiceCount, plan)
      {
        hide KeyMapHolds, AssignsAll;
        assert batchList[..i + 1] == batchList[..i] + [batchList[i]];
        FlatSnoc(batchList[..i], batchList[i]);
        brokerMap, plan := AssignBatch(batchList[i], brokerMap, plan, Flat(batchList[..i]));
      }
      assert batchList[..|batchList|] == batchList;
    }

    method AssignBatch(batch: Batch, soFar: map<nat, seq<Msg>>, ghost planned: seq<Assigned>, ghost ms: seq<Msg>)
      returns (brokerMap: map<nat, seq<Msg>>, ghost plan: seq<Assigned>)
      requires WellFormed(metadata) && KeyRoutable(metadata, [batch]) && !faulted
      requires AssignsAll(metadata, planned, ms) && KeyMapHolds(soFar, metadata.inServiceCount, planned)
      modifies `faulted
      ensures !faulted
      ensures AssignsAll(metadata, plan, ms + batch)
      ensures KeyMapHolds(brokerMap, metadata.inServiceCount, plan)
    {
      hide WellFormed, KeyMapHolds, AssignsAll;
      brokerMap, plan := soFar, planned;
      assert ms + batch[..0] == ms;
      assert batch == [batch][0];
      for j := 0 to |batch|
        invariant !faulted
        invariant AssignsAll(metadata, plan, ms + batch[..j])
        invariant KeyMapHolds(brokerMap, metadata.inServiceCount, plan)
      {
        var m := batch[j];
        var p := ChooseByKey(m.topic, m.key);
        var routed := m.(partition := p.id);
        ghost var a := Assigned(p.brokerIndex, routed);
        KeyBrokerInService(metadata, routed, a.broker);
        AssignOne(metadata, plan, ms + batch[..j], m, a);
        KeyMapGrows(brokerMap, metadata.inServiceCount, plan, a);
        assert ms + batch[..j + 1] == (ms + batch[..j]) + [m];
        var b := p.brokerIndex;
        brokerMap := brokerMap[b := (if b in brokerMap then brokerMap[b] else []) + [routed]];
        plan := plan + [a];
      }
      assert batch[..|batch|] == batch;
    }

    /** Last loop of RoutePartitionKeyNow. */
    method DispatchKeyed(brokerMap: map<nat, seq<Msg>>, ghost plan: seq<Assigned>, ghost ms: seq<Msg>)
      returns (ghost sent: seq<Dispatch>)
      requires WellFormed(metadata) && |queues| == metadata.inServiceCount && !faulted
      requires AssignsAll(metadata, plan, ms) && KeyMapHolds(brokerMap, metadata.inServiceCount, plan)
      modifies `queues, `discarded, `faulted
      ensures !faulted && discarded == old(discarded)
      ensures AllGood(metadata, sent) && InRange(sent, |old(queues)|)
      ensures queues == EnqueueAll(old(queues), sent)
      ensures forall e :: e in sent ==> KeepsKeyOrder(plan, e)
      ensures BatchBag(Batches(sent)) == Bag(ms)
    {
      hide WellFormed, AllGood, EnqueueAll, InRange, Flat, MsgsFor, MsgsIn, KeepsKeyOrder, Having, Entries, AssignsAll;
      sent := [];
      NothingSent(queues);
      NoneGood(metadata);
      var todo := brokerMap.Keys;
      MsgsInEnds(plan, todo);
      FlatNil();
      while todo != {}
        invariant todo <= brokerMap.Keys
        invariant !faulted && discarded == old(discarded)
        invariant AllGood(metadata, sent) && InRange(sent, |old(queues)|)
        invariant queues == EnqueueAll(old(queues), sent)
        invariant forall e :: e in sent ==> KeepsKeyOrder(plan, e)
        invariant multiset(Flat(Batches(sent))) + multiset(MsgsIn(plan, todo)) == multiset(Mapped(MsgOf, plan))
        decreases todo
      {
        var b :| b in todo;
        assert b in brokerMap;
        var groups := GroupByTopic(brokerMap[b]);
        MsgsInSplit(plan, todo, b);
        FlatMore(sent, b, groups);
        KeyedGroupsGood(metadata, plan, ms, b, groups);
        GoodConcat(metadata, sent, Entries(b, groups));
        DispatchNow(groups, b);
        EnqueueMore(old(queues), sent, Entries(b, groups));
        sent := sent + Entries(b, groups);
        todo := todo - {b};
      }
      MsgsInEnds(plan, {});
      SameBodies(metadata, plan, ms);
      KeyedSentBag(plan, ms, sent);
    }

    // ---------------------------------------------------------------------- rerouting

    method ValidateBeforeReroute(batch: Batch) returns (kept: Batch)
      requires SingleTopic(batch)
      modifies `discarded
      ensures HasOk(metadata, batch[0].topic) ==> kept == batch && discarded == old(discarded)
      ensures !HasOk(metadata, batch[0].topic) ==> kept == [] && discarded == old(discarded) + batch
    {
      kept := batch;
      var k := FindTopicIndex(metadata, batch[0].topic);
      if k < 0 {
        discarded := discarded + batch;
        kept := [];
      } else if metadata.topics[k].ok == [] {
        discarded := discarded + batch;
        kept := [];
      }
    }

    /** Loop of Reroute: validates and separates the two routing types. */
    method SeparateForReroute(batchList: seq<Batch>) returns (any: seq<Batch>, keyed: seq<Batch>)
      requires AllSingleTopic(batchList)
      modifies `discarded
      ensures any == AnyBatches(Usable(metadata, batchList)) && AnyRoutable(metadata, any)
      ensures keyed == KeyBatches(Usable(metadata, batchList)) && KeyRoutable(metadata, keyed)
      ensures discarded == old(discarded) + Flat(Rejected(metadata, batchList))
    {
      hide AnyRoutable, KeyRoutable, Usable, Rejected, AnyBatches, KeyBatches, Flat, AnyPart, KeyPart, HasOk;
      any, keyed := [], [];
      SeparateNone(metadata);
      for i := 0 to |batchList|
        invariant any == AnyBatches(Usable(metadata, batchList[..i])) && AnyRoutable(metadata, any)
        invariant keyed == KeyBatches(Usable(metadata, batchList[..i])) && KeyRoutable(metadata, keyed)
        invariant discarded == old(discarded) + Flat(Rejected(metadata, batchList[..i]))
      {
        var batch := batchList[i];
        assert batchList[..i + 1] == batchList[..i] + [batch];
        assert SingleTopic(batch) by { assert batch in batchList; }
        SeparateStep(metadata, batchList[..i], batch);
        var kept := ValidateBeforeReroute(batch);
        if kept != [] {
          PartsRoutable(metadata, any, keyed, batch);
          var anyPart, keyPart := SplitBatch(kept);
          keyed := if keyPart != [] then keyed + [keyPart] else keyed;
          any := if anyPart != [] then any + [anyPart] else any;
        }
      }
      assert batchList[..|batchList|] == batchList;
    }

    /** Every message handed to Reroute is dispatched once or discarded once. */
    method Reroute(batchList: seq<Batch>)
      returns (ghost sentAny: seq<Dispatch>, ghost sentKeyed: seq<Dispatch>, ghost plan: seq<Assigned>)
      requires CanRoute() && AllSingleTopic(batchList)
      modifies `routeCounters, `tmpBrokerMap, `queues, `discarded, `faulted
      ensures CanRoute()
      ensures discarded == old(discarded) + Flat(Rejected(metadata, batchList))
      ensures AllGood(metadata, sentAny + sentKeyed) && InRange(sentAny + sentKeyed, |old(queues)|)
      ensures queues == EnqueueAll(old(queues), sentAny + sentKeyed)
      ensures multiset(Batches(sentAny)) == multiset(AnyBatches(Usable(metadata, batchList)))
      ensures AssignsAll(metadata, plan, Flat(KeyBatches(Usable(metadata, batchList))))
      ensures forall e :: e in sentKeyed ==> KeepsKeyOrder(plan, e)
      ensures BatchBag(Batches(sentAny + sentKeyed)) + BatchBag(Rejected(metadata, batchList)) == BatchBag(batchList)
    {
      hide WellFormed, HeldBatches, EnqueueAll, AllGood, BatchBag, Flat, InRange, KeepsKeyOrder, AssignsAll;
      hide Usable, Rejected, AnyBatches, KeyBatches, AnyRoutable, KeyRoutable;
      var any, keyed := SeparateForReroute(batchList);
      sentAny := RouteAnyPartitionNow(any);
      sentKeyed, plan := RoutePartitionKeyNow(keyed);
      GoodConcat(metadata, sentAny, sentKeyed);
      EnqueueMore(old(queues), sentAny, sentKeyed);
      RerouteBag(metadata, batchList, sentAny, sentKeyed);
    }

    // ------------------------------------------------------------------- new messages

    /** The first failing test decides; the rate limiter is asked last, and only about
        messages that would otherwise be routed. */
    method ValidateNewMsg(msg: Msg, rateLimited: bool) returns (reason: Option<DiscardReason>)
      modifies `discarded
      ensures reason.None? <==> Acceptable(metadata, conf, Arrival(msg, rateLimited))
      ensures reason == Some(BadTopic) <==> FindTopicIndex(metadata, msg.topic) < 0
      ensures reason == Some(LongMsg) <==>
        && FindTopicIndex(metadata, msg.topic) >= 0
        && (msg.truncated || msg.bodySize + conf.singleMsgOverhead > conf.messageMaxBytes)
      ensures reason == Some(NoAvailablePartitions) <==>
        && FindTopicIndex(metadata, msg.topic) >= 0 && !TooLong(conf, msg)
        && !HasOk(metadata, msg.topic)
      ensures reason == Some(RateLimit) <==>
        HasOk(metadata, msg.topic) && !TooLong(conf, msg) && rateLimited
      ensures discarded == old(discarded) + if reason.None? then [] else [msg]
    {
      var k := FindTopicIndex(metadata, msg.topic);
      if k < 0 {
        reason := Some(BadTopic);
      } else if msg.truncated || msg.bodySize + conf.singleMsgOverhead > conf.messageMaxBytes {
        reason := Some(LongMsg);
      } else if metadata.topics[k].ok == [] {
        reason := Some(NoAvailablePartitions);
      } else if rateLimited {
        reason := Some(RateLimit);
      } else {
        return None;
      }
      discarded := discarded + [msg];
    }

    method AssignBroker(msg: Msg) returns (broker: nat, routed: Msg)
      requires WellFormed(metadata) && |routeCounters| == |metadata.topics| && HasOk(metadata, msg.topic) && !faulted
      modifies `routeCounters, `faulted
      ensures |routeCounters| == |metadata.topics| && !faulted
      ensures Body(routed) == Body(msg) && GoodDispatch(metadata, Dispatch(broker, [routed]))
    {
      hide WellFormed;
      if msg.routing.PartitionKey? {
        var p := ChooseByKey(msg.topic, msg.key);
        routed, broker := msg.(partition := p.id), p.brokerIndex;
        KeyBrokerInService(metadata, routed, broker);
      } else {
        routed := msg;
        broker := ChooseAnyPartitionBrokerIndex(msg.topic);
        AnyBatchGood(metadata, Dispatch(broker, [routed]));
      }
    }

    /** A message routed on its own. */
    method Route(msg: Msg) returns (ghost e: Dispatch)
      requires CanRoute() && HasOk(metadata, msg.topic)
      modifies `routeCounters, `queues, `discarded, `faulted
      ensures CanRoute() && discarded == old(discarded)
      ensures GoodDispatch(metadata, e) && |e.batch| == 1 && Body(e.batch[0]) == Body(msg)
      ensures InRange([e], |old(queues)|) && queues == EnqueueAll(old(queues), [e])
    {
      hide WellFormed, HeldBatches, EnqueueAll, TmpEmpty;
      var broker, routed := AssignBroker(msg);
      e := Dispatch(broker, [routed]);
      assert Entries(broker, [[routed]]) == [e];
      GoodInRange(metadata, [e]);
      EnqueueAllBag(queues, [e]);
      DispatchNow([[routed]], broker);
    }

    /** Last loop of HandleMsgAvailable: one dispatch per message, in order. */
    method RouteEach(ms: seq<Msg>) returns (ghost sent: seq<Dispatch>)
      requires CanRoute() && AllHaveOk(metadata, ms)
      modifies `routeCounters, `queues, `discarded, `faulted
      ensures CanRoute() && discarded == old(discarded)
      ensures AllGood(metadata, sent) && InRange(sent, |old(queues)|)
      ensures queues == EnqueueAll(old(queues), sent)
      ensures OneEach(sent, ms)
    {
      hide WellFormed, HeldBatches, EnqueueAll, AllGood, GoodDispatch, OneEach, InRange, TmpEmpty, Router.CanRoute;
      sent := [];
      NothingSent(queues);
      NoneGood(metadata);
      assert OneEach(sent, ms[..0]) by { NoneEach(); }
      for i := 0 to |ms|
        invariant CanRoute() && discarded == old(discarded)
        invariant AllGood(metadata, sent) && InRange(sent, |old(queues)|)
        invariant queues == EnqueueAll(old(queues), sent)
        invariant OneEach(sent, ms[..i])
      {
        ghost var e := Route(ms[i]);
        assert AllGood(metadata, [e]) by { OneGood(metadata, e); }
        GoodConcat(metadata, sent, [e]);
        EnqueueMore(old(queues), sent, [e]);
        OneMore(sent, e, ms[..i], ms[i]);
        assert ms[..i + 1] == ms[..i] + [ms[i]];
        sent := sent + [e];
      }
      assert ms[..|ms|] == ms;
    }

    /** First loop of HandleMsgAvailable. */
    method TakeIn(arrivals: seq<Arrival>, now: int) returns (ready: seq<Batch>, remaining: seq<Msg>)
      requires BatchesSound(batchMap) && TopicsUsable(metadata, batchMap) && NoneFull(conf.batchConf, batchMap)
      modifies `batchMap, `discarded
      ensures BatchesSound(batchMap) && TopicsUsable(metadata, batchMap)
      ensures ReadyFor(ready, batchMap.Keys) && AllHaveOk(metadata, remaining)
      ensures Pending(batchMap, discarded, ready, remaining) ==
              MapBag(old(batchMap)) + Bag(old(discarded)) + Bag(Mapped(ArrivalMsg, arrivals))
      ensures discarded == old(discarded) + TurnedAway(metadata, conf, arrivals)
      ensures remaining == RoutedAlone(metadata, conf, arrivals)
      ensures BatchedAsDue(metadata, conf, old(batchMap), batchMap, ready, arrivals, now)
    {
      hide MapBag, Bag, BatchBag, Pending, BatchesSound, ReadyFor, Acceptable, BatchedAsDue, NoneFull, Handled, Mapped;
      hide TopicsUsable, AllHaveOk, TurnedAway, RoutedAlone, GoesAlone, Offered;
      ready, remaining := [], [];
      ghost var before := MapBag(batchMap) + Bag(discarded);
      PendingStart(batchMap, discarded);
      EmptyBag();
      assert before + multiset{} == before && arrivals[..0] == [];
      assert ReadyFor([], batchMap.Keys) by { NothingReady(batchMap.Keys); }
      IntakeStart(metadata, conf, batchMap, now);
      for i := 0 to |arrivals|
        invariant BatchesSound(batchMap) && TopicsUsable(metadata, batchMap)
        invariant ReadyFor(ready, batchMap.Keys) && AllHaveOk(metadata, remaining)
        invariant Pending(batchMap, discarded, ready, remaining) == before + Bag(Mapped(ArrivalMsg, arrivals[..i]))
        invariant discarded == old(discarded) + TurnedAway(metadata, conf, arrivals[..i])
        invariant remaining == RoutedAlone(metadata, conf, arrivals[..i])
        invariant BatchedAsDue(metadata, conf, old(batchMap), batchMap, ready, arrivals[..i], now)
      {
        assert arrivals[..i + 1] == arrivals[..i] + [arrivals[i]];
        ArrivalsSnoc(metadata, conf, arrivals, i);
        ghost var m, out, more := batchMap, ready, [];
        ready, remaining, more := TakeInOne(arrivals[i], ready, remaining, now);
        IntakeStep(metadata, conf, old(batchMap), m, out, arrivals[..i], arrivals[i], batchMap, more, now);
        assert before + (Bag(Mapped(ArrivalMsg, arrivals[..i])) + Bag([arrivals[i].msg])) ==
               (before + Bag(Mapped(ArrivalMsg, arrivals[..i]))) + Bag([arrivals[i].msg]);
      }
      assert arrivals[..|arrivals|] == arrivals;
    }

    method TakeInOne(a: Arrival, ready: seq<Batch>, remaining: seq<Msg>, now: int)
      returns (ready': seq<Batch>, remaining': seq<Msg>, ghost more: seq<Batch>)
      requires BatchesSound(batchMap) && TopicsUsable(metadata, batchMap)
      requires ReadyFor(ready, batchMap.Keys) && AllHaveOk(metadata, remaining)
      modifies `batchMap, `discarded
      ensures BatchesSound(batchMap) && TopicsUsable(metadata, batchMap)
      ensures ReadyFor(ready', batchMap.Keys) && AllHaveOk(metadata, remaining')
      ensures Pending(batchMap, discarded, ready', remaining') ==
              Pending(old(batchMap), old(discarded), ready, remaining) + Bag([a.msg])
      ensures discarded == old(discarded) + if Acceptable(metadata, conf, a) then [] else [a.msg]
      ensures remaining' == remaining +
        if Acceptable(metadata, conf, a) && GoesAlone(conf, a.msg) then [a.msg] else []
      ensures ready' == ready + more
      ensures Offered(metadata, conf, a) ==>
        forall t :: Handled(conf.batchConf, old(batchMap), batchMap, more, a.msg, now, t)
      ensures !Offered(metadata, conf, a) ==> batchMap == old(batchMap) && more == []
    {
      hide MapBag, Bag, BatchBag, Pending, BatchesSound, ReadyFor, HasOk, Handled;
      assert discarded + [] == discarded && remaining + [] == remaining && ready + [] == ready;
      ready', remaining', more := ready, remaining, [];
      var reason := ValidateNewMsg(a.msg, a.rateLimited);
      if reason.Some? {
        PendingDiscard(batchMap, old(discarded), ready, remaining, a.msg);
        return;
      }
      var taken := false;
      if a.msg.routing.AnyPartition? && conf.batching {
        var out, m;
        taken, m, out := AddMsg(conf.batchConf, batchMap, a.msg, now);
        PendingBatched(batchMap, m, discarded, ready, out, remaining, if taken then Bag([a.msg]) else multiset{});
        ReadyForMore(ready, batchMap.Keys, m.Keys);
        ReadyConcat(ready, out, m.Keys);
        ready', more := ready + out, out;
        batchMap := m;
      }
      if !taken {
        PendingRemain(batchMap, discarded, ready', remaining, a.msg);
        remaining' := remaining + [a.msg];
      }
    }

    // ----------------------------------------------------------------------- handlers

    ghost function InHand(): multiset<Msg>
      reads this
    {
      Ledger(batchMap, queues, discarded, finished)
    }

    ghost function Holdings(): Held
      reads this
    {
      Held(batchMap, queues, discarded, duplicates, finished)
    }

    ghost function Now(): State
      reads this
    {
      State(metadata, Holdings())
    }

    /** What every step keeps.  In particular each message ever received is in exactly one
        place, no batch is kept that has reached its limits, and no step has died or
        dispatched to a missing broker. */
    ghost predicate Valid()
      reads this
    {
      && CanRoute()
      && BatchesSound(batchMap) && TopicsUsable(metadata, batchMap) && NoneFull(conf.batchConf, batchMap)
      && InHand() == received
    }

    method HandleMsgAvailable(arrivals: seq<Arrival>, now: int) returns (ghost w: Moves)
      requires Valid()
      modifies `batchMap, `discarded, `routeCounters, `tmpBrokerMap, `queues, `faulted, `received
      ensures Valid()
      ensures received == old(received) + Bag(Mapped(ArrivalMsg, arrivals))
      ensures TookIn(metadata, conf, old(Holdings()), arrivals, now, Holdings(), w)
    {
      hide WellFormed, HeldBatches, EnqueueAll, AllGood, InRange, MapBag, Bag, BatchBag, Pending, Ledger, AnyRoutable;
      hide BatchesSound, ReadyFor, TopicsUsable, TmpEmpty, AllHaveOk, OneEach, Router.CanRoute, NoneFull;
      hide BatchedAsDue, TurnedAway, RoutedAlone, Batches, Mapped;
      ghost var added := Bag(Mapped(ArrivalMsg, arrivals));
      var ready, remaining := TakeIn(arrivals, now);
      LedgerTakenIn(old(batchMap), old(discarded), batchMap, discarded, ready, remaining, queues, finished, added);
      ReadyRoutable(metadata, batchMap, ready);
      ghost var sentAny := RouteAnyPartitionNow(ready);
      ghost var sentOne := RouteEach(remaining);
      StillNotFull(metadata, conf, old(batchMap), batchMap, ready, arrivals, now);
      GoodConcat(metadata, sentAny, sentOne);
      EnqueueMore(old(queues), sentAny, sentOne);
      SentBag(ready, remaining, sentAny, sentOne);
      LedgerSentAll(batchMap, old(queues), discarded, finished, sentAny + sentOne, ready, remaining);
      received := received + added;
      w := NO_MOVES.(ready := ready, sent := sentAny, sentOne := sentOne);
    }

    method HandleBatchExpiry(now: int) returns (ghost w: Moves)
      requires Valid()
      modifies `batchMap, `discarded, `routeCounters, `tmpBrokerMap, `queues, `faulted
      ensures Valid()
      ensures SentExpired(metadata, conf, old(Holdings()), now, Holdings(), w)
    {
      hide WellFormed, HeldBatches, EnqueueAll, AllGood, InRange, MapBag, Bag, BatchBag, Ledger, AnyRoutable;
      hide BatchesSound, ReadyFor, TmpEmpty, NoneFull, Expired, ExpiredOut, OfTopic, InExpiryOrder;
      var ready;
      batchMap, ready := GetCompleteBatches(conf.batchConf, batchMap, now);
      ExpiredAreOut(conf.batchConf, old(batchMap), batchMap, ready, now);
      ReadyRoutable(metadata, batchMap, ready);
      ghost var sent := RouteAnyPartitionNow(ready);
      w := NO_MOVES.(sent := sent);
      LedgerBatched(old(batchMap), batchMap, old(queues), discarded, finished, BatchBag(ready), multiset{});
      LedgerSent(batchMap, old(queues), discarded, finished, sent);
      BatchBagPermuted(Batches(sent), ready);
      SameExpired(conf.batchConf, old(batchMap), batchMap, ready, Batches(sent), now);
    }

    // ------------------------------------------------------------------- new metadata

    /** Counters are resized, batches of topics that became unusable are discarded, and
        nothing else moves. */
    method SetMetadata(meta: Metadata) returns (ghost dropped: seq<Msg>)
      requires TopicsUsable(metadata, batchMap) && BatchesSound(batchMap)
      modifies `metadata, `routeCounters, `batchMap, `tmpBrokerMap, `discarded
      ensures metadata == meta && tmpBrokerMap == map[]
      ensures |routeCounters| == |meta.topics|
      ensures forall i :: 0 <= i < |routeCounters| ==>
        routeCounters[i] == if i < |old(routeCounters)| then old(routeCounters)[i] else 0
      ensures batchMap == StillUsable(old(batchMap), meta)
      ensures discarded == old(discarded) + dropped && AllUnusable(meta, dropped)
      ensures MapBag(batchMap) + Bag(dropped) == MapBag(old(batchMap))
      ensures Ledger(batchMap, queues, discarded, finished) == Ledger(old(batchMap), queues, old(discarded), finished)
    {
      hide WellFormed, MapBag, Bag, BatchBag, HeldBatches, HasOk, StillUsable;
      routeCounters := Resized(routeCounters, |meta.topics|);
      var deleted, unavailable;
      batchMap, deleted, unavailable := UpdateBatchStateForNewMetadata(batchMap, metadata, meta);
      LedgerDropped(old(batchMap), batchMap, queues, discarded, finished, deleted, unavailable);
      dropped := deleted + unavailable;
      DroppedTogether(meta, deleted, unavailable, MapBag(batchMap));
      discarded := discarded + deleted + unavailable;
      metadata := meta;
      tmpBrokerMap := map[];
    }

    /** New metadata with a restarted dispatcher, as on a pause and on a refresh that
        found changes.  Everything the old dispatcher held is rerouted by the new
        metadata. */
    method SwitchMetadata(meta: Metadata)
      returns (ghost w: Moves)
      requires Valid() && WellFormed(meta)
      modifies this
      ensures Valid() && metadata == meta && received == old(received)
      ensures Replaced(meta, old(Holdings()), Holdings(), w)
    {
      hide WellFormed, MapBag, Bag, BatchBag, HeldBatches, HasOk, StillUsable, EnqueueAll, AllGood, InRange, Ledger;
      hide BatchesSound, TmpEmpty, Rejected, Usable, AnyBatches, KeyBatches, KeepsKeyOrder, AssignsAll, Flat,
        AllSingleTopic;
      hide EmptyQueues, Router.CanRoute, TopicsUsable, FairMerge, NoneFull, AllUnusable;
      ghost var dropped;
      var held;
      dropped, held := InstallMetadata(meta);
      ghost var before := discarded;
      ghost var sentAny, sentKeyed, plan := Reroute(held);
      ghost var sent := sentAny + sentKeyed;
      LedgerRerouted(batchMap, EmptyQueues(meta.inServiceCount), before, finished, Rejected(meta, held), sent, held);
      RejectedUnusable(meta, held);
      w := NO_MOVES.(dropped := dropped, held := held, sent := sent);
    }

    /** Metadata replaced and dispatcher restarted; what it held is still to be rerouted. */
    method InstallMetadata(meta: Metadata) returns (ghost dropped: seq<Msg>, held: seq<Batch>)
      requires Valid() && WellFormed(meta)
      modifies this
      ensures CanRoute() && BatchesSound(batchMap) && TopicsUsable(meta, batchMap) && NoneFull(conf.batchConf, batchMap)
      ensures metadata == meta && received == old(received) && finished == old(finished)
      ensures queues == EmptyQueues(meta.inServiceCount)
      ensures batchMap == StillUsable(old(batchMap), meta)
      ensures discarded == old(discarded) + dropped && AllUnusable(meta, dropped)
      ensures MapBag(batchMap) + Bag(dropped) == MapBag(old(batchMap))
      ensures duplicates == old(duplicates) + Unacknowledged(old(queues))
      ensures multiset(held) == multiset(HeldBatches(old(queues))) && AllSingleTopic(held)
      ensures exists origin :: FairMerge(BrokerLists(old(queues)), held, origin)
      ensures Ledger(batchMap, queues, discarded, finished) + BatchBag(held) == received
    {
      hide WellFormed, MapBag, Bag, BatchBag, HeldBatches, HasOk, StillUsable, Ledger, BatchesSound, TmpEmpty,
        AllSingleTopic, FairMerge, NoneFull, AllUnusable;
      dropped := SetMetadata(meta);
      assert BatchesSound(batchMap) && TopicsUsable(metadata, batchMap) && NoneFull(conf.batchConf, batchMap) by {
        StillUsableSound(conf.batchConf, old(batchMap), meta);
      }
      TmpStartsEmpty(meta.inServiceCount);
      held := RestartDispatcher();
    }

    /** The dispatcher is emptied and started again for the current metadata. */
    method RestartDispatcher() returns (held: seq<Batch>)
      requires AllSingleTopic(HeldBatches(queues))
      modifies `queues, `duplicates
      ensures queues == EmptyQueues(metadata.inServiceCount) && AllSingleTopic(HeldBatches(queues))
      ensures duplicates == old(duplicates) + Unacknowledged(old(queues))
      ensures multiset(held) == multiset(HeldBatches(old(queues))) && AllSingleTopic(held)
      ensures exists origin :: FairMerge(BrokerLists(old(queues)), held, origin)
      ensures Ledger(batchMap, queues, discarded, finished) + BatchBag(held) ==
              Ledger(batchMap, old(queues), discarded, finished)
    {
      hide HeldBatches, Ledger, BatchBag, FairMerge, SingleTopic;
      var dups;
      held, dups := EmptyDispatcher(queues);
      duplicates := duplicates + dups;
      var fresh' := EmptyQueues(metadata.inServiceCount);
      FreshHoldsNothing(metadata.inServiceCount);
      LedgerEmptied(batchMap, queues, fresh', discarded, finished, held);
      SameElements(held, HeldBatches(queues));
      queues := fresh';
    }

    /** With comparison on, equal metadata changes nothing at all; otherwise the new metadata
        is taken over, and what the dispatcher held is rerouted. */
    method RefreshMetadata(meta: Metadata, compare: bool)
      returns (ghost w: Moves)
      requires Valid() && WellFormed(meta)
      modifies this
      ensures Valid() && received == old(received)
      ensures ViewOf(metadata) == ViewOf(meta)
      ensures compare && ViewOf(old(metadata)) == ViewOf(meta) ==> unchanged(this)
      ensures !(compare && ViewOf(old(metadata)) == ViewOf(meta)) ==>
        metadata == meta && Replaced(meta, old(Holdings()), Holdings(), w)
    {
      hide WellFormed, Ledger, BatchesSound, HeldBatches, TmpEmpty, ViewOf, Replaced, NoneFull;
      w := NO_MOVES;
      if compare {
        var same := Equal(meta, metadata);
        if same {
          return;
        }
      }
      w := SwitchMetadata(meta);
    }

    // ---------------------------------------------------------------------- every run

    constructor (meta: Metadata, settings: Settings)
      requires WellFormed(meta)
      ensures Valid() && metadata == meta && conf == settings && received == multiset{} && discarded == []
    {
      conf := settings;
      metadata, routeCounters := meta, Resized([], |meta.topics|);
      batchMap, tmpBrokerMap := map[], map[];
      queues := EmptyQueues(meta.inServiceCount);
      discarded, duplicates, finished := [], [], [];
      faulted := false;
      received := multiset{};
      new;
      FreshHoldsNothing(meta.inServiceCount);
      EmptyBag();
    }

    /** The dispatcher's threads work on their queues. */
    method DispatcherProgress(queues': seq<Queue>, dropped: seq<Msg>, done: seq<Msg>)
      requires Valid() && CanProgress(queues, queues', dropped, done)
      modifies `queues, `discarded, `finished
      ensures Valid() && queues == queues'
      ensures discarded == old(discarded) + dropped && finished == old(finished) + done
    {
      hide WellFormed, Ledger, BatchesSound, HeldBatches, TmpEmpty, BatchBag, Bag, NoneFull;
      LedgerProgress(batchMap, queues, queues', discarded, finished, dropped, done);
      queues, discarded, finished := queues', discarded + dropped, finished + done;
    }

    /** A pause, or an update of the metadata. */
    method HandleMetadataUpdate(e: Event) returns (ghost w: Moves)
      requires Valid() && LegalEvent(e) && (e.Pause? || e.Refresh?)
      modifies this
      ensures Valid() && received == old(received)
      ensures Step(conf, old(Now()), e, Now(), w)
    {
      hide Valid, WellFormed, ViewOf, Replaced;
      if e.Pause? {
        w := SwitchMetadata(e.meta);
      } else {
        w := RefreshMetadata(e.meta, e.compare);
      }
    }

    /** Each event does what it should, and no more. */
    method Handle(e: Event) returns (ghost w: Moves)
      requires Valid() && LegalEvent(e)
      modifies this
      ensures Valid()
      ensures received == old(received) + Arrived(e)
      ensures Step(conf, old(Now()), e, Now(), w)
    {
      hide Valid, WellFormed, Bag, ViewOf, TookIn, SentExpired, Replaced, CanProgress, Mapped;
      assert received + multiset{} == received;
      match e {
        case MsgsAvailable(arrivals, now) => w := HandleMsgAvailable(arrivals, now);
        case BatchExpiry(now) => w := HandleBatchExpiry(now);
        case Pause(_) => w := HandleMetadataUpdate(e);
        case Refresh(_, _) => w := HandleMetadataUpdate(e);
        case Progress(queues', lost, done) =>
          w := NO_MOVES;
          if CanProgress(queues, queues', lost, done) {
            DispatcherProgress(queues', lost, done);
          }
      }
    }

    /** Every sequence of events is handled step by step.  On the way each message received
        is in exactly one place, all batched topics stay usable, nothing is discarded without
        an event that is a reason for it, and the router neither dies nor addresses a broker
        the dispatcher does not have. */
    method Run(events: seq<Event>) returns (ghost trace: seq<State>, ghost moves: seq<Moves>)
      requires Valid() && LegalEvents(events)
      modifies this
      ensures Valid() && metadata == MetaAfterAll(old(metadata), events)
      ensures received == old(received) + AllArrived(events)
      ensures IsTrace(conf, old(Now()), events, trace, moves) && trace[|events|] == Now()
      ensures old(discarded) <= discarded
      ensures forall k :: |old(discarded)| <= k < |discarded| ==>
        DiscardedFor(old(metadata), conf, events, discarded[k])
    {
      ghost var s0, total := Now(), received;
      hide Valid, LegalEvent, Arrived, Step, AllArrived, IsTrace, MetaAfterAll, DiscardedFor;
      assert Sane(metadata) by { ValidSane(); }
      trace, moves := [Now()], [];
      RunStart(conf, Now());
      assert received + multiset{} == received && events[..0] == [];
      for i := 0 to |events|
        invariant Valid() && LegalEvents(events[..i])
        invariant received == total + AllArrived(events[..i])
        invariant IsTrace(conf, s0, events[..i], trace, moves) && |trace| == i + 1 && trace[i] == Now()
      {
        assert events[..i + 1] == events[..i] + [events[i]];
        ValidSane();
        ghost var w := Handle(events[i]);
        RunSnoc(conf, s0, events[..i], events[i], trace, moves, Now(), w);
        trace, moves := trace + [Now()], moves + [w];
        assert received == total + (AllArrived(events[..i]) + Arrived(events[i]));
      }
      assert events[..|events|] == events;
      TraceExplained(conf, s0, events, trace, moves);
    }

    lemma ValidSane()
      requires Valid()
      ensures Sane(metadata)
    {
    }
  }

  // ---------------------------------------------------------------- what a step moves

  /** Where messages are. */
  datatype Held = Held(
    batchMap: BatchMap,
    queues: seq<Queue>,
    discarded: seq<Msg>,
    duplicates: seq<Msg>,
    finished: seq<Msg>)

  datatype State = State(md: Metadata, held: Held)

  /** What moves in a step: batches that are complete, messages dropped with their batches,
      batches that the dispatcher gave back, and dispatches. */
  datatype Moves = Moves(
    ready: seq<Batch>,
    dropped: seq<Msg>,
    held: seq<Batch>,
    sent: seq<Dispatch>,
    sentOne: seq<Dispatch>)

  const NO_MOVES := Moves([], [], [], [], [])

  /** The arrivals are taken in.  Those turned away are discarded; the others join batches or
      are dispatched one by one in order; and complete batches are dispatched whole. */
  ghost predicate TookIn(md: Metadata, conf: Settings, h: Held, arrivals: seq<Arrival>, now: int, h': Held, w: Moves) {
    && h'.duplicates == h.duplicates && h'.finished == h.finished
    && h'.discarded == h.discarded + TurnedAway(md, conf, arrivals)
    && AllGood(md, w.sent + w.sentOne) && InRange(w.sent + w.sentOne, |h.queues|)
    && h'.queues == EnqueueAll(h.queues, w.sent + w.sentOne)
    && multiset(Batches(w.sent)) == multiset(w.ready)
    && BatchedAsDue(md, conf, h.batchMap, h'.batchMap, w.ready, arrivals, now)
    && OneEach(w.sentOne, RoutedAlone(md, conf, arrivals))
  }

  /** The batches that are due are dispatched. */
  ghost predicate SentExpired(md: Metadata, conf: Settings, h: Held, now: int, h': Held, w: Moves) {
    && h'.duplicates == h.duplicates && h'.finished == h.finished && h'.discarded == h.discarded
    && AllGood(md, w.sent) && InRange(w.sent, |h.queues|)
    && h'.queues == EnqueueAll(h.queues, w.sent)
    && ExpiredOut(conf.batchConf, h.batchMap, h'.batchMap, Batches(w.sent), now)
  }

  ghost predicate AllUnusable(md: Metadata, ms: seq<Msg>) {
    forall x :: x in ms ==> !HasOk(md, x.topic)
  }

  /** The metadata is replaced.  Batches of topics that it cannot take are dropped.  All that
      the dispatcher held, merged fairly, is either dispatched anew or, for topics that it
      cannot take, discarded; and what was sent without acknowledgement may arrive twice. */
  ghost predicate Replaced(meta: Metadata, h: Held, h': Held, w: Moves) {
    && h'.finished == h.finished
    && h'.batchMap == StillUsable(h.batchMap, meta)
    && MapBag(h'.batchMap) + Bag(w.dropped) == MapBag(h.batchMap)
    && h'.duplicates == h.duplicates + Unacknowledged(h.queues)
    && multiset(w.held) == multiset(HeldBatches(h.queues)) && AllSingleTopic(w.held)
    && (exists origin :: FairMerge(BrokerLists(h.queues), w.held, origin))
    && AllGood(meta, w.sent) && InRange(w.sent, meta.inServiceCount)
    && h'.queues == EnqueueAll(EmptyQueues(meta.inServiceCount), w.sent)
    && BatchBag(Batches(w.sent)) + BatchBag(Rejected(meta, w.held)) == BatchBag(w.held)
    && h'.discarded == h.discarded + w.dropped + Flat(Rejected(meta, w.held))
    && AllUnusable(meta, w.dropped) && AllUnusable(meta, Flat(Rejected(meta, w.held)))
  }

  /** What each event does. */
  ghost predicate Step(conf: Settings, s: State, e: Event, s': State, w: Moves)
    requires Sane(s.md) && LegalEvent(e)
  {
    match e
    case MsgsAvailable(arrivals, now) => s'.md == s.md && TookIn(s.md, conf, s.held, arrivals, now, s'.held, w)
    case BatchExpiry(now) => s'.md == s.md && SentExpired(s.md, conf, s.held, now, s'.held, w)
    case Pause(meta) => s'.md == meta && Replaced(meta, s.held, s'.held, w)
    case Refresh(meta, compare) =>
      if compare && ViewOf(s.md) == ViewOf(meta) then s' == s
      else s'.md == meta && Replaced(meta, s.held, s'.held, w)
    case Progress(queues', lost, done) =>
      s' == if !CanProgress(s.held.queues, queues', lost, done) then s
            else
              var h := s.held;
              s.(held := h.(queues := queues', discarded := h.discarded + lost, finished := h.finished + done))
  }

  /** The states before, between and after the events. */
  ghost predicate IsTrace(conf: Settings, s: State, events: seq<Event>, trace: seq<State>, moves: seq<Moves>)
    requires LegalEvents(events)
  {
    && |trace| == |events| + 1 && |moves| == |events| && trace[0] == s
    && forall i :: 0 <= i < |events| ==>
      Sane(trace[i].md) && Step(conf, trace[i], events[i], trace[i + 1], moves[i])
  }

  /** Everything queued is for a topic that the metadata can take. */
  ghost predicate QueuedUsable(md: Metadata, queues: seq<Queue>) {
    forall b: Batch :: b in HeldBatches(queues) ==> SingleTopic(b) && HasOk(md, b[0].topic)
  }

  lemma {:induction false} RejectedUnusable(md: Metadata, batches: seq<Batch>)
    requires AllSingleTopic(batches)
    ensures AllUnusable(md, Flat(Rejected(md, batches)))
  {
    if batches == [] {
    } else {
      hide HasOk;
      var n := |batches| - 1;
      RejectedUnusable(md, batches[..n]);
      assert batches[n] in batches;
      FlatSnoc(Rejected(md, batches[..n]), batches[n]);
      assert Rejected(md, batches[..n]) + [] == Rejected(md, batches[..n]);
    }
  }

  lemma DroppedTogether(md: Metadata, deleted: seq<Msg>, unavailable: seq<Msg>, rest: multiset<Msg>)
    requires forall x :: x in deleted ==> FindTopicIndex(md, x.topic) < 0
    requires forall x :: x in unavailable ==> FindTopicIndex(md, x.topic) >= 0 && !HasOk(md, x.topic)
    ensures AllUnusable(md, deleted + unavailable)
    ensures rest + Bag(deleted + unavailable) == rest + Bag(deleted) + Bag(unavailable)
  {
    BagConcat(deleted, unavailable);
  }

  lemma SentUsable(md: Metadata, sent: seq<Dispatch>)
    requires AllGood(md, sent) && InRange(sent, md.inServiceCount)
    ensures QueuedUsable(md, EnqueueAll(EmptyQueues(md.inServiceCount), sent))
  {
    hide HeldBatches, EnqueueAll, HasOk;
    FreshHoldsNothing(md.inServiceCount);
    var queues := EnqueueAll(EmptyQueues(md.inServiceCount), sent);
    EnqueueAllHeld(EmptyQueues(md.inServiceCount), sent);
    SameElements(HeldBatches(queues), Batches(sent));
    forall b: Batch | b in Batches(sent) ensures SingleTopic(b) && HasOk(md, b[0].topic) {
      var i :| 0 <= i < |sent| && Batches(sent)[i] == b;
      assert BatchOf(sent[i]) == b && sent[i] in sent;
      assert MayGo(md, b[0], sent[i].broker);
    }
  }

  // -------------------------------------------------------------- why messages are lost

  ghost function MetaAfter(md: Metadata, e: Event): Metadata
    requires Sane(md) && LegalEvent(e)
  {
    match e
    case Pause(meta) => meta
    case Refresh(meta, compare) => if compare && ViewOf(md) == ViewOf(meta) then md else meta
    case _ => md
  }

  ghost function MetaAfterAll(md: Metadata, events: seq<Event>): (r: Metadata)
    requires Sane(md) && LegalEvents(events)
    ensures Sane(r)
  {
    if events == [] then md
    else
      MetaAfter(MetaAfterAll(md, events[..|events| - 1]), events[|events| - 1])
  }

  /** The event is a reason to discard the message: it arrives and is turned away; the new
      metadata cannot take its topic; or the dispatcher gives up on it. */
  ghost predicate MayDiscard(md: Metadata, conf: Settings, e: Event, x: Msg) {
    match e
    case MsgsAvailable(arrivals, _) => exists a: Arrival :: a in arrivals && a.msg == x && !Acceptable(md, conf, a)
    case BatchExpiry(_) => false
    case Pause(meta) => !HasOk(meta, x.topic)
    case Refresh(meta, _) => !HasOk(meta, x.topic)
    case Progress(_, lost, _) => x in lost
  }

  ghost predicate OnlyDiscards(md: Metadata, conf: Settings, e: Event, before: seq<Msg>, after: seq<Msg>) {
    before <= after && forall k :: |before| <= k < |after| ==> MayDiscard(md, conf, e, after[k])
  }

  lemma NothingDiscarded(md: Metadata, conf: Settings, e: Event, discarded: seq<Msg>)
    ensures OnlyDiscards(md, conf, e, discarded, discarded)
  {
  }

  lemma LostOnly(md: Metadata, conf: Settings, e: Event, discarded: seq<Msg>)
    requires e.Progress?
    ensures OnlyDiscards(md, conf, e, discarded, discarded + e.dropped)
  {
  }

  lemma {:induction false} TurnedAwayAre(md: Metadata, conf: Settings, arrivals: seq<Arrival>)
    ensures forall x :: x in TurnedAway(md, conf, arrivals) ==>
      exists a :: a in arrivals && a.msg == x && !Acceptable(md, conf, a)
  {
    if arrivals == [] {
    } else {
      hide Acceptable;
      var n := |arrivals| - 1;
      TurnedAwayAre(md, conf, arrivals[..n]);
      assert arrivals[n] in arrivals && forall a :: a in arrivals[..n] ==> a in arrivals;
    }
  }

  lemma TurnedAwayOnly(md: Metadata, conf: Settings, e: Event, discarded: seq<Msg>)
    requires e.MsgsAvailable?
    ensures OnlyDiscards(md, conf, e, discarded, discarded + TurnedAway(md, conf, e.arrivals))
  {
    hide Acceptable, TurnedAway;
    TurnedAwayAre(md, conf, e.arrivals);
    var away := TurnedAway(md, conf, e.arrivals);
    forall k | |discarded| <= k < |discarded + away| ensures MayDiscard(md, conf, e, (discarded + away)[k]) {
      assert away[k - |discarded|] in away;
    }
  }

  lemma ReplacedDiscards(md: Metadata, conf: Settings, e: Event, meta: Metadata, h: Held, h': Held, w: Moves)
    requires Replaced(meta, h, h', w)
    requires (e.Pause? && e.meta == meta) || (e.Refresh? && e.meta == meta)
    ensures OnlyDiscards(md, conf, e, h.discarded, h'.discarded) && QueuedUsable(meta, h'.queues)
  {
    hide HasOk, MapBag, Bag, BatchBag, AllGood, InRange, EnqueueAll, HeldBatches, StillUsable, FairMerge, Rejected;
    hide Flat, QueuedUsable;
    SentUsable(meta, w.sent);
    var gone, d := w.dropped + Flat(Rejected(meta, w.held)), |h.discarded|;
    assert h'.discarded == h.discarded + gone;
    forall k | d <= k < |h'.discarded| ensures !HasOk(meta, h'.discarded[k].topic) {
      assert h'.discarded[k] == gone[k - d] && gone[k - d] in gone;
    }
  }

  /** Some event was a reason to discard the message, under the metadata of its time. */
  ghost predicate DiscardedFor(md: Metadata, conf: Settings, events: seq<Event>, x: Msg)
    requires Sane(md) && LegalEvents(events)
  {
    exists i :: 0 <= i < |events| && MayDiscard(MetaAfterAll(md, events[..i]), conf, events[i], x)
  }

  ghost predicate DiscardsExplained(md: Metadata, conf: Settings, events: seq<Event>, before: seq<Msg>, after: seq<Msg>)
    requires Sane(md) && LegalEvents(events)
  {
    before <= after && forall k :: |before| <= k < |after| ==> DiscardedFor(md, conf, events, after[k])
  }

  /** A step discards only what it has a reason to discard, and after new metadata nothing is
      queued that it cannot take. */
  lemma StepDiscards(conf: Settings, s: State, e: Event, s': State, w: Moves)
    requires Sane(s.md) && LegalEvent(e) && Step(conf, s, e, s', w)
    ensures s'.md == MetaAfter(s.md, e) && Sane(s'.md)
    ensures OnlyDiscards(s.md, conf, e, s.held.discarded, s'.held.discarded)
    ensures s'.md != s.md ==> QueuedUsable(s'.md, s'.held.queues)
  {
    hide Sane, ViewOf, Replaced, CanProgress, OnlyDiscards, QueuedUsable;
    match e {
      case MsgsAvailable(_, _) => TurnedAwayOnly(s.md, conf, e, s.held.discarded);
      case BatchExpiry(_) => NothingDiscarded(s.md, conf, e, s.held.discarded);
      case Pause(meta) => ReplacedDiscards(s.md, conf, e, meta, s.held, s'.held, w);
      case Refresh(meta, compare) =>
        if compare && ViewOf(s.md) == ViewOf(meta) {
          NothingDiscarded(s.md, conf, e, s.held.discarded);
        } else {
          ReplacedDiscards(s.md, conf, e, meta, s.held, s'.held, w);
        }
      case Progress(_, _, _) =>
        NothingDiscarded(s.md, conf, e, s.held.discarded);
        LostOnly(s.md, conf, e, s.held.discarded);
    }
  }

  lemma RunStart(conf: Settings, s: State)
    requires Sane(s.md)
    ensures AllArrived([]) == multiset{} && IsTrace(conf, s, [], [s], [])
  {
  }

  lemma RunSnoc(conf: Settings, s: State, events: seq<Event>, e: Event, trace: seq<State>, moves: seq<Moves>, s': State,
      w: Moves)
    requires LegalEvents(events) && LegalEvent(e) && IsTrace(conf, s, events, trace, moves)
    requires Sane(trace[|events|].md) && Step(conf, trace[|events|], e, s', w)
    ensures LegalEvents(events + [e]) && IsTrace(conf, s, events + [e], trace + [s'], moves + [w])
    ensures AllArrived(events + [e]) == AllArrived(events) + Arrived(e)
  {
    hide LegalEvent, Step, Arrived, Sane;
    var n, all, trace', moves' := |events|, events + [e], trace + [s'], moves + [w];
    assert all[..n] == events;
    forall i | 0 <= i < |all| ensures Sane(trace'[i].md) && Step(conf, trace'[i], all[i], trace'[i + 1], moves'[i]) {
      if i < n {
        assert trace'[i] == trace[i] && trace'[i + 1] == trace[i + 1] && all[i] == events[i] && moves'[i] == moves[i];
      } else {
        assert trace'[n] == trace[n] && trace'[n + 1] == s' && all[n] == e && moves'[n] == w;
      }
    }
  }

  /** Along every run, what is discarded was discarded for a reason. */
  lemma {:induction false} TraceExplained(conf: Settings, s: State, events: seq<Event>, trace: seq<State>,
      moves: seq<Moves>)
    requires Sane(s.md) && LegalEvents(events) && IsTrace(conf, s, events, trace, moves)
    ensures trace[|events|].md == MetaAfterAll(s.md, events)
    ensures DiscardsExplained(s.md, conf, events, s.held.discarded, trace[|events|].held.discarded)
    decreases |events|
  {
    hide LegalEvent, Step, Sane, MetaAfter, DiscardedFor, OnlyDiscards, QueuedUsable;
    if events == [] {
    } else {
      var n := |events| - 1;
      var before, e := events[..n], events[n];
      assert events == before + [e];
      TraceExplained(conf, s, before, trace[..|trace| - 1], moves[..n]);
      StepDiscards(conf, trace[n], e, trace[n + 1], moves[n]);
      ExplainedMore(s.md, conf, before, e, s.held.discarded, trace[n].held.discarded, trace[n + 1].held.discarded);
    }
  }

  lemma ExplainedMore(md: Metadata, conf: Settings, events: seq<Event>, e: Event, first: seq<Msg>, before: seq<Msg>,
      after: seq<Msg>)
    requires Sane(md) && LegalEvents(events) && LegalEvent(e)
    requires DiscardsExplained(md, conf, events, first, before)
    requires OnlyDiscards(MetaAfterAll(md, events), conf, e, before, after)
    ensures LegalEvents(events + [e]) && DiscardsExplained(md, conf, events + [e], first, after)
  {
    hide MayDiscard, MetaAfterAll, LegalEvent, Sane;
    var all := events + [e];
    assert all[..|events|] == events;
    forall k | |first| <= k < |after| ensures DiscardedFor(md, conf, all, after[k]) {
      if k < |before| {
        assert DiscardedFor(md, conf, events, before[k]);
        var i :| 0 <= i < |events| && MayDiscard(MetaAfterAll(md, events[..i]), conf, events[i], before[k]);
        assert all[..i] == events[..i] && all[i] == events[i];
      } else {
        assert all[|events|] == e;
      }
    }
  }

  // ---------------------------------------------------------------- taking in messages

  lemma IntakeStart(md: Metadata, conf: Settings, m: BatchMap, now: int)
    requires NoneFull(conf.batchConf, m)
    ensures BatchedAsDue(md, conf, m, m, [], [], now)
    ensures Mapped(ArrivalMsg, []) == [] && AllHaveOk(md, [])
    ensures TurnedAway(md, conf, []) == [] && RoutedAlone(md, conf, []) == []
  {
    NothingJoined(conf.batchConf, m, now);
  }

  lemma StillNotFull(md: Metadata, conf: Settings, m0: BatchMap, m: BatchMap, ready: seq<Batch>, arrivals: seq<Arrival>,
      now: int)
    requires BatchedAsDue(md, conf, m0, m, ready, arrivals, now)
    ensures NoneFull(conf.batchConf, m)
  {
  }

  lemma JoinedSnoc(md: Metadata, conf: Settings, arrivals: seq<Arrival>, a: Arrival)
    ensures Joined(md, conf, arrivals + [a]) ==
      Joined(md, conf, arrivals) + if Acceptable(md, conf, a) && !GoesAlone(conf, a.msg) then [a.msg] else []
  {
    hide Acceptable, GoesAlone;
    assert (arrivals + [a])[..|arrivals|] == arrivals;
  }

  lemma IntakeStep(md: Metadata, conf: Settings, m0: BatchMap, m: BatchMap, ready: seq<Batch>, arrivals: seq<Arrival>,
      a: Arrival, m': BatchMap, more: seq<Batch>, now: int)
    requires BatchedAsDue(md, conf, m0, m, ready, arrivals, now)
    requires Offered(md, conf, a) ==> forall t :: Handled(conf.batchConf, m, m', more, a.msg, now, t)
    requires !Offered(md, conf, a) ==> m' == m && more == []
    ensures BatchedAsDue(md, conf, m0, m', ready + more, arrivals + [a], now)
  {
    hide Acceptable, TopicsInOrder, AllJustified, NoneFull, NoneDue, Handled, Joined;
    JoinedSnoc(md, conf, arrivals, a);
    var joined := Joined(md, conf, arrivals);
    assert joined + [] == joined;
    if Offered(md, conf, a) {
      MsgHandled(conf.batchConf, m0, m, ready, joined, m', more, a.msg, now);
      assert a in arrivals + [a];
    } else {
      assert ready + [] == ready;
      if x :| x in arrivals + [a] && Offered(md, conf, x) {
        assert x in arrivals;
      }
    }
  }

  /** The batches that are due are out, whole, and no others; and none is left. */
  ghost predicate ExpiredOut(conf: BatchConf, m: BatchMap, m': BatchMap, out: seq<Batch>, now: int) {
    && m'.Keys == m.Keys
    && (forall t :: t in m ==> m'[t] == if Expired(conf, m, now, t) then [] else m[t])
    && (forall b :: b in out <==> exists t :: Expired(conf, m, now, t) && b == m[t])
    && AllDue(conf, out, now) && NoneDue(conf, m', now)
  }

  ghost predicate AllDue(conf: BatchConf, out: seq<Batch>, now: int) {
    forall b :: b in out ==>
      && (BatchTopic(b) in conf.topics ==> Due(conf.topics[BatchTopic(b)], b, now))
      && (BatchTopic(b) !in conf.topics ==> Due(conf.defaultTopic, b, now))
  }

  lemma ExpiredAreOut(conf: BatchConf, m: BatchMap, m': BatchMap, ready: seq<Batch>, now: int)
    requires NoneFull(conf, m) && m'.Keys == m.Keys && BatchesSound(m)
    requires forall t :: t in m ==> m'[t] == if Expired(conf, m, now, t) then [] else m[t]
    requires forall t :: OfTopic(ready, t) == if Expired(conf, m, now, t) then [m[t]] else []
    ensures NoneFull(conf, m') && ExpiredOut(conf, m, m', ready, now)
  {
    hide Due, Full, OfTopic;
    forall b ensures b in ready <==> exists t :: Expired(conf, m, now, t) && b == m[t] {
      ReadyExpired(conf, m, ready, now, b);
    }
    forall b | b in ready ensures Due(LimitsFor(conf, BatchTopic(b)), b, now) {
      var t :| Expired(conf, m, now, t) && b == m[t];
      assert BatchTopic(b) == t;
    }
  }

  lemma SameExpired(conf: BatchConf, m: BatchMap, m': BatchMap, ready: seq<Batch>, out: seq<Batch>, now: int)
    requires ExpiredOut(conf, m, m', ready, now) && multiset(out) == multiset(ready)
    ensures ExpiredOut(conf, m, m', out, now)
  {
    hide Expired, NoneDue;
    SameElements(out, ready);
  }

  lemma ReadyExpired(conf: BatchConf, m: BatchMap, ready: seq<Batch>, now: int, b: Batch)
    requires BatchesSound(m)
    requires forall t :: OfTopic(ready, t) == if Expired(conf, m, now, t) then [m[t]] else []
    ensures b in ready <==> exists t :: Expired(conf, m, now, t) && b == m[t]
  {
    hide Due, Having;
    if b in ready {
      HavingElements(ready, BatchTopic, BatchTopic(b));
      assert b in OfTopic(ready, BatchTopic(b));
    }
    if t :| Expired(conf, m, now, t) && b == m[t] {
      HavingElements(ready, BatchTopic, t);
      assert b in OfTopic(ready, t);
    }
  }

  ghost function Arrived(e: Event): multiset<Msg> {
    if e.MsgsAvailable? then Bag(Mapped(ArrivalMsg, e.arrivals)) else multiset{}
  }

  ghost function AllArrived(events: seq<Event>): multiset<Msg> {
    if events == [] then multiset{}
    else AllArrived(events[..|events| - 1]) + Arrived(events[|events| - 1])
  }

  /** Batches being collected for topics that are gone or have no usable partition any
      more are taken out; the others stay as they are. */
  method UpdateBatchStateForNewMetadata(m: BatchMap, oldMd: Metadata, newMd: Metadata)
    returns (m': BatchMap, deleted: seq<Msg>, unavailable: seq<Msg>)
    requires TopicsUsable(oldMd, m) && BatchesSound(m)
    ensures m' == StillUsable(m, newMd)
    ensures MapBag(m') + Bag(deleted) + Bag(unavailable) == MapBag(m)
    ensures forall x :: x in deleted ==> FindTopicIndex(newMd, x.topic) < 0
    ensures forall x :: x in unavailable ==> FindTopicIndex(newMd, x.topic) >= 0 && !HasOk(newMd, x.topic)
  {
    hide MapBag, Bag, LeftOver;
    m', deleted, unavailable := m, [], [];
    EmptyBag();
    var todo := oldMd.topicIndex.Keys;
    LeftOverEnds(m, oldMd, newMd);
    while todo != {}
      invariant m' == LeftOver(m, newMd, todo)
      invariant MapBag(m') + Bag(deleted) + Bag(unavailable) == MapBag(m)
      invariant forall x :: x in deleted ==> FindTopicIndex(newMd, x.topic) < 0
      invariant forall x :: x in unavailable ==> FindTopicIndex(newMd, x.topic) >= 0 && !HasOk(newMd, x.topic)
      decreases todo
    {
      var t :| t in todo;
      LeftOverStep(m, oldMd, newMd, todo, t);
      var batch: Batch := [];
      var k := FindTopicIndex(oldMd, t);
      if k >= 0 && oldMd.topics[k].ok != [] {
        k := FindTopicIndex(newMd, t);
        if k < 0 {
          m', batch := DeleteTopic(m', t);
          TakeOut(MapBag(m'), Bag(batch), deleted, unavailable, batch);
          deleted := deleted + batch;
        } else if newMd.topics[k].ok == [] {
          m', batch := DeleteTopic(m', t);
          TakeOut(MapBag(m'), Bag(batch), deleted, unavailable, batch);
          unavailable := unavailable + batch;
        }
      }
      todo := todo - {t};
    }
  }

  ghost function LeftOver(m: BatchMap, md: Metadata, todo: set<string>): BatchMap {
    map t | t in m && (t in todo || HasOk(md, t)) :: m[t]
  }

  lemma LeftOverEnds(m: BatchMap, oldMd: Metadata, newMd: Metadata)
    requires TopicsUsable(oldMd, m)
    ensures LeftOver(m, newMd, oldMd.topicIndex.Keys) == m
    ensures LeftOver(m, newMd, {}) == StillUsable(m, newMd)
  {
  }

  lemma LeftOverStep(m: BatchMap, oldMd: Metadata, newMd: Metadata, todo: set<string>, t: string)
    requires TopicsUsable(oldMd, m) && BatchesSound(m)
    ensures HasOk(oldMd, t) && !HasOk(newMd, t) ==> LeftOver(m, newMd, todo - {t}) == LeftOver(m, newMd, todo) - {t}
    ensures !HasOk(oldMd, t) || HasOk(newMd, t) ==> LeftOver(m, newMd, todo - {t}) == LeftOver(m, newMd, todo)
    ensures t in LeftOver(m, newMd, todo) ==> forall x :: x in LeftOver(m, newMd, todo)[t] ==> x.topic == t
  {
    hide HasOk;
    var before, after := LeftOver(m, newMd, todo), LeftOver(m, newMd, todo - {t});
    if HasOk(oldMd, t) && !HasOk(newMd, t) {
      assert after.Keys == (before - {t}).Keys;
    } else {
      assert after.Keys == before.Keys;
    }
  }

  lemma TakeOut(m: multiset<Msg>, b: multiset<Msg>, deleted: seq<Msg>, unavailable: seq<Msg>, batch: Batch)
    requires b == Bag(batch)
    ensures m + Bag(deleted + batch) + Bag(unavailable) == (m + b) + Bag(deleted) + Bag(unavailable)
    ensures m + Bag(deleted) + Bag(unavailable + batch) == (m + b) + Bag(deleted) + Bag(unavailable)
  {
    hide Bag;
    BagConcat(deleted, batch);
    BagConcat(unavailable, batch);
    Shift(m, b, multiset{}, Bag(deleted), Bag(unavailable));
    Shift(m, b, Bag(deleted), Bag(unavailable), multiset{});
  }

  function EmptyQueues(n: nat): (queues: seq<Queue>)
    ensures |queues| == n
  {
    seq(n, i requires 0 <= i < n => Queue([], []))
  }

  lemma StillUsableSound(conf: BatchConf, m: BatchMap, md: Metadata)
    requires BatchesSound(m) && NoneFull(conf, m)
    ensures BatchesSound(StillUsable(m, md)) && TopicsUsable(md, StillUsable(m, md))
    ensures NoneFull(conf, StillUsable(m, md))
  {
    hide Full;
  }

  lemma TmpStartsEmpty(n: nat)
    ensures TmpEmpty(map[], n)
  {
  }

  lemma ArrivalsSnoc(md: Metadata, conf: Settings, arrivals: seq<Arrival>, i: nat)
    requires i < |arrivals|
    ensures TurnedAway(md, conf, arrivals[..i + 1]) ==
      TurnedAway(md, conf, arrivals[..i]) + if Acceptable(md, conf, arrivals[i]) then [] else [arrivals[i].msg]
    ensures RoutedAlone(md, conf, arrivals[..i + 1]) == RoutedAlone(md, conf, arrivals[..i]) +
      if Acceptable(md, conf, arrivals[i]) && GoesAlone(conf, arrivals[i].msg) then [arrivals[i].msg] else []
    ensures Bag(Mapped(ArrivalMsg, arrivals[..i + 1])) ==
      Bag(Mapped(ArrivalMsg, arrivals[..i])) + Bag([arrivals[i].msg])
  {
    hide Acceptable, GoesAlone;
    assert arrivals[..i + 1][..i] == arrivals[..i];
    assert ArrivalMsg(arrivals[i]) == arrivals[i].msg;
    assert Mapped(ArrivalMsg, arrivals[..i + 1]) == Mapped(ArrivalMsg, arrivals[..i]) + [arrivals[i].msg];
    BagConcat(Mapped(ArrivalMsg, arrivals[..i]), [arrivals[i].msg]);
  }

  lemma ReadyRoutable(md: Metadata, m: BatchMap, ready: seq<Batch>)
    requires TopicsUsable(md, m) && ReadyFor(ready, m.Keys)
    ensures AnyRoutable(md, ready)
  {
  }

  lemma SentBag(ready: seq<Batch>, remaining: seq<Msg>, sentAny: seq<Dispatch>, sentOne: seq<Dispatch>)
    requires multiset(Batches(sentAny)) == multiset(ready) && OneEach(sentOne, remaining)
    ensures BatchBag(Batches(sentAny + sentOne)) == BatchBag(ready) + Bag(remaining)
  {
    hide BatchBag, Bag, OneEach;
    BatchBagPermuted(Batches(sentAny), ready);
    OneEachBag(sentOne, remaining);
    MappedConcat(BatchOf, sentAny, sentOne);
    BatchBagConcat(Batches(sentAny), Batches(sentOne));
  }

  /** One dispatch for each message, in order. */
  ghost predicate OneEach(sent: seq<Dispatch>, ms: seq<Msg>) {
    |sent| == |ms| && forall i :: 0 <= i < |ms| ==> Bodies(sent[i].batch) == [Body(ms[i])]
  }

  lemma NoneEach()
    ensures OneEach([], [])
  {
  }

  lemma OneMore(sent: seq<Dispatch>, e: Dispatch, ms: seq<Msg>, m: Msg)
    requires OneEach(sent, ms) && |e.batch| == 1 && Body(e.batch[0]) == Body(m)
    ensures OneEach(sent + [e], ms + [m])
  {
  }

  lemma OneGood(md: Metadata, e: Dispatch)
    requires GoodDispatch(md, e)
    ensures AllGood(md, [e])
  {
  }

  lemma {:induction false} OneEachBag(sent: seq<Dispatch>, ms: seq<Msg>)
    requires OneEach(sent, ms)
    ensures BatchBag(Batches(sent)) == Bag(ms)
  {
    if sent == [] {
      EmptyBag();
    } else {
      hide BatchBag, Bag, Batches;
      var n := |sent| - 1;
      OneEachBag(sent[..n], ms[..n]);
      BatchesSnoc(sent[..n], sent[n]);
      BatchBagConcat(Batches(sent[..n]), [sent[n].batch]);
      BatchBagOne(sent[n].batch);
      BagConcat(ms[..n], [ms[n]]);
      BagSame(sent[n].batch, [ms[n]]);
      assert sent == sent[..n] + [sent[n]] && ms == ms[..n] + [ms[n]];
    }
  }

  // -------------------------------------------------------------------------- rerouting

  lemma RerouteBag(md: Metadata, batchList: seq<Batch>, sentAny: seq<Dispatch>, sentKeyed: seq<Dispatch>)
    requires AllSingleTopic(batchList)
    requires multiset(Batches(sentAny)) == multiset(AnyBatches(Usable(md, batchList)))
    requires BatchBag(Batches(sentKeyed)) == BatchBag(KeyBatches(Usable(md, batchList)))
    ensures BatchBag(Batches(sentAny + sentKeyed)) + BatchBag(Rejected(md, batchList)) == BatchBag(batchList)
  {
    hide BatchBag, Usable, Rejected, AnyBatches, KeyBatches;
    BatchBagPermuted(Batches(sentAny), AnyBatches(Usable(md, batchList)));
    MappedConcat(BatchOf, sentAny, sentKeyed);
    BatchBagConcat(Batches(sentAny), Batches(sentKeyed));
    PartsBag(Usable(md, batchList));
    RejectedBag(md, batchList);
  }

  lemma SeparateNone(md: Metadata)
    ensures AnyBatches(Usable(md, [])) == [] && AnyRoutable(md, [])
    ensures KeyBatches(Usable(md, [])) == [] && KeyRoutable(md, [])
    ensures Flat(Rejected(md, [])) == []
  {
  }

  lemma SeparateStep(md: Metadata, batches: seq<Batch>, b: Batch)
    requires AllSingleTopic(batches) && SingleTopic(b)
    ensures AllSingleTopic(batches + [b])
    ensures HasOk(md, b[0].topic) ==>
      && Rejected(md, batches + [b]) == Rejected(md, batches)
      && AnyBatches(Usable(md, batches + [b])) == AnyBatches(Usable(md, batches)) + NonEmpty(AnyPart(b))
      && KeyBatches(Usable(md, batches + [b])) == KeyBatches(Usable(md, batches)) + NonEmpty(KeyPart(b))
    ensures !HasOk(md, b[0].topic) ==>
      && Usable(md, batches + [b]) == Usable(md, batches)
      && Flat(Rejected(md, batches + [b])) == Flat(Rejected(md, batches)) + b
  {
  }

  lemma PartsRoutable(md: Metadata, any: seq<Batch>, keyed: seq<Batch>, b: Batch)
    requires AnyRoutable(md, any) && KeyRoutable(md, keyed)
    requires SingleTopic(b) && HasOk(md, b[0].topic)
    ensures AnyRoutable(md, any + NonEmpty(AnyPart(b))) && KeyRoutable(md, keyed + NonEmpty(KeyPart(b)))
  {
    SplitElements(b);
    assert forall i :: 0 <= i < |AnyPart(b)| ==> AnyPart(b)[i] in AnyPart(b);
    assert forall i :: 0 <= i < |KeyPart(b)| ==> KeyPart(b)[i] in KeyPart(b);
  }

  // ---------------------------------------------------------------------- keyed routing

  /** The broker map of RoutePartitionKeyNow holds the assigned messages, by broker. */
  ghost predicate KeyMapHolds(m: map<nat, seq<Msg>>, brokerCount: nat, plan: seq<Assigned>) {
    && (forall b :: b in m ==> b < brokerCount && m[b] == MsgsFor(plan, b))
    && (forall a :: a in plan ==> a.broker in m)
  }

  lemma KeyMapGrows(m: map<nat, seq<Msg>>, brokerCount: nat, plan: seq<Assigned>, a: Assigned)
    requires KeyMapHolds(m, brokerCount, plan) && a.broker < brokerCount
    ensures KeyMapHolds(m[a.broker := (if a.broker in m then m[a.broker] else []) + [a.msg]], brokerCount, plan + [a])
  {
    hide MsgsFor;
    var m' := m[a.broker := (if a.broker in m then m[a.broker] else []) + [a.msg]];
    forall b | b in m' ensures m'[b] == MsgsFor(plan + [a], b) {
      MsgsForSnoc(plan, a, b);
      if b !in m { MsgsForNone(plan, b); }
    }
  }

  /** Each batch is one broker's messages for one topic, all of them, in order. */
  ghost predicate KeepsKeyOrder(plan: seq<Assigned>, e: Dispatch) {
    SingleTopic(e.batch) && e.batch == Having(MsgsFor(plan, e.broker), TopicOf, e.batch[0].topic)
  }

  lemma KeyedGroupsGood(md: Metadata, plan: seq<Assigned>, ms: seq<Msg>, broker: nat, groups: seq<Batch>)
    requires WellFormed(md) && AssignsAll(md, plan, ms)
    requires forall b: Batch :: b in groups ==>
      SingleTopic(b) && b == Having(MsgsFor(plan, broker), TopicOf, b[0].topic)
    ensures AllGood(md, Entries(broker, groups))
    ensures forall e :: e in Entries(broker, groups) ==> KeepsKeyOrder(plan, e)
  {
    hide WellFormed;
    MsgsForElements(plan, broker);
    var es := Entries(broker, groups);
    forall e | e in es ensures GoodDispatch(md, e) && KeepsKeyOrder(plan, e) {
      var i :| 0 <= i < |es| && es[i] == e;
      assert e.batch == groups[i] && groups[i] in groups;
      HavingElements(MsgsFor(plan, broker), TopicOf, e.batch[0].topic);
      forall j | 0 <= j < |e.batch| ensures MayGo(md, e.batch[j], broker) {
        assert e.batch[j] in e.batch;
        assert Assigned(broker, e.batch[j]) in plan;
      }
      assert e.batch[0] in e.batch && Assigned(broker, e.batch[0]) in plan;
      KeyBrokerInService(md, e.batch[0], broker);
    }
  }

  lemma SameBodies(md: Metadata, plan: seq<Assigned>, ms: seq<Msg>)
    requires AssignsAll(md, plan, ms)
    ensures Bodies(Mapped(MsgOf, plan)) == Bodies(ms)
  {
  }

  lemma FlatNil()
    ensures Flat([]) == [] && Flat(Batches([])) == []
  {
  }

  lemma KeyedSentBag(plan: seq<Assigned>, ms: seq<Msg>, sent: seq<Dispatch>)
    requires Bodies(Mapped(MsgOf, plan)) == Bodies(ms)
    requires multiset(Flat(Batches(sent))) == multiset(Mapped(MsgOf, plan))
    ensures BatchBag(Batches(sent)) == Bag(ms)
  {
    BagPermuted(Flat(Batches(sent)), Mapped(MsgOf, plan));
  }

  lemma FlatMore(sent: seq<Dispatch>, broker: nat, groups: seq<Batch>)
    ensures Flat(Batches(sent + Entries(broker, groups))) == Flat(Batches(sent)) + Flat(groups)
  {
    hide Flat, Entries;
    MappedConcat(BatchOf, sent, Entries(broker, groups));
    EntriesBatches(broker, groups);
    FlatConcat(Batches(sent), groups);
  }

  lemma GoodConcat(md: Metadata, a: seq<Dispatch>, b: seq<Dispatch>)
    requires AllGood(md, a) && AllGood(md, b)
    ensures AllGood(md, a + b)
  {
  }

  // ------------------------------------------------------------------ the temporary map

  /** The temporary map holds the planned batches, by broker. */
  ghost predicate TmpHolds(tmp: map<nat, seq<Batch>>, brokerCount: nat, plan: seq<Dispatch>) {
    && (forall b :: b in tmp ==> b < brokerCount && tmp[b] == Batches(ForBroker(plan, b)))
    && (forall e :: e in plan ==> e.broker in tmp)
  }

  /** While dispatching, the brokers not yet served still hold their planned batches. */
  ghost predicate TmpTodo(tmp: map<nat, seq<Batch>>, todo: set<nat>, brokerCount: nat, plan: seq<Dispatch>) {
    && todo <= tmp.Keys
    && (forall b :: b in tmp ==> b < brokerCount)
    && (forall b :: b in todo ==> tmp[b] == Batches(ForBroker(plan, b)))
    && (forall b :: b in tmp && b !in todo ==> tmp[b] == [])
  }

  lemma RoutableBatch(md: Metadata, batches: seq<Batch>, i: nat)
    requires AnyRoutable(md, batches) && i < |batches|
    ensures SingleTopic(batches[i]) && HasOk(md, batches[i][0].topic)
    ensures forall j :: 0 <= j < |batches[i]| ==> batches[i][j].routing.AnyPartition?
  {
  }

  lemma TmpHoldsNothing(tmp: map<nat, seq<Batch>>, brokerCount: nat)
    requires TmpEmpty(tmp, brokerCount)
    ensures TmpHolds(tmp, brokerCount, [])
  {
  }

  lemma TmpAllTodo(tmp: map<nat, seq<Batch>>, brokerCount: nat, plan: seq<Dispatch>)
    requires TmpHolds(tmp, brokerCount, plan)
    ensures TmpTodo(tmp, tmp.Keys, brokerCount, plan)
  {
  }

  lemma TmpStep(tmp: map<nat, seq<Batch>>, todo: set<nat>, brokerCount: nat, plan: seq<Dispatch>, b: nat)
    requires TmpTodo(tmp, todo, brokerCount, plan) && b in todo
    ensures b in tmp && b < brokerCount
    ensures ForBroker(plan, b) == Entries(b, tmp[b])
    ensures tmp[b] == [] ==> ForBroker(plan, b) == []
    ensures TmpTodo(tmp[b := []], todo - {b}, brokerCount, plan)
  {
    HavingIsEntries(plan, b);
  }

  lemma TmpNoneTodo(tmp: map<nat, seq<Batch>>, brokerCount: nat, plan: seq<Dispatch>)
    requires TmpTodo(tmp, {}, brokerCount, plan)
    ensures TmpEmpty(tmp, brokerCount)
  {
  }

  lemma PermutedGood(md: Metadata, sent: seq<Dispatch>, plan: seq<Dispatch>)
    requires multiset(sent) == multiset(plan) && AllGood(md, plan)
    ensures AllGood(md, sent)
  {
    SameElements(sent, plan);
  }

  lemma TmpGrows(tmp: map<nat, seq<Batch>>, brokerCount: nat, plan: seq<Dispatch>, e: Dispatch)
    requires TmpHolds(tmp, brokerCount, plan) && e.broker < brokerCount
    ensures TmpHolds(tmp[e.broker := (if e.broker in tmp then tmp[e.broker] else []) + [e.batch]], brokerCount,
                     plan + [e])
  {
    var tmp' := tmp[e.broker := (if e.broker in tmp then tmp[e.broker] else []) + [e.batch]];
    forall b | b in tmp' ensures tmp'[b] == Batches(ForBroker(plan + [e], b)) {
      ForBrokerSnoc(plan, e, b);
      if b == e.broker {
        if b !in tmp { NothingPlanned(plan, b); }
        BatchesSnoc(ForBroker(plan, b), e);
      }
    }
  }

  lemma NothingPlanned(plan: seq<Dispatch>, b: nat)
    requires forall e :: e in plan ==> e.broker != b
    ensures ForBroker(plan, b) == []
  {
    ForBrokerElements(plan, b);
    NoElements(ForBroker(plan, b));
  }

  lemma NothingSent(queues: seq<Queue>)
    ensures InRange([], |queues|) && EnqueueAll(queues, []) == queues && Batches([]) == []
  {
  }

  lemma NoneGood(md: Metadata)
    ensures AllGood(md, [])
  {
  }

  lemma AnyBatchGood(md: Metadata, e: Dispatch)
    requires WellFormed(md) && SingleTopic(e.batch) && AnyGoesTo(md, e.batch[0].topic, e.broker)
    requires forall j :: 0 <= j < |e.batch| ==> e.batch[j].routing.AnyPartition?
    ensures GoodDispatch(md, e) && e.broker < md.inServiceCount
  {
    OkBrokerInService(md, e.batch[0].topic, e.broker);
  }
}
