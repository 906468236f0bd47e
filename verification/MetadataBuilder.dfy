/** The incremental builder behind every metadata update, and what it promises: whatever
    legal calls are made, Build yields well-formed metadata that says exactly what the
    calls said. */
module MetadataBuilder {
  import opened Metadata
  import opened Packing
  import opened Regrouping
  import opened Sorting

  datatype Phase = Initial | AddingBrokers | AddingTopics | AddingOneTopic

  datatype Endpoint = Endpoint(hostname: string, port: nat)

  // ------------------------------------------------------ what a call sequence says

  /** The content of the calls so far: no vectors, no positions, no sorting. */
  datatype Draft = Draft(
    phase: Phase,
    brokers: map<int, Endpoint>,
    topics: map<string, TopicView>,
    current: string)

  datatype Call =
    | OpenBrokerList
    | AddBroker(kafkaId: int, hostname: string, port: nat)
    | CloseBrokerList
    | OpenTopic(name: string)
    | AddPartitionToTopic(partitionId: int, brokerId: int, canSend: bool, errorCode: int)
    | CloseTopic

  const NO_DRAFT := Draft(Initial, map[], map[], "")

  predicate Legal(d: Draft, call: Call) {
    match call
    case OpenBrokerList => d.phase.Initial?
    case AddBroker(_, _, _) => d.phase.AddingBrokers?
    case CloseBrokerList => d.phase.AddingBrokers?
    case OpenTopic(_) => d.phase.AddingTopics?
    case AddPartitionToTopic(_, _, _, _) => d.phase.AddingOneTopic?
    case CloseTopic => d.phase.AddingOneTopic?
  }

  function InfoIds(infos: set<PartitionInfo>): set<int> {
    set info | info in infos :: info.id
  }

  /** First mention wins; partitions on unknown brokers do not count. */
  function WithPartition(v: TopicView, brokers: map<int, Endpoint>, info: PartitionInfo, canSend: bool): TopicView {
    if info.brokerId !in brokers || info.id in InfoIds(v.ok) + InfoIds(v.outOfService) then v
    else if canSend then v.(ok := v.ok + {info})
    else v.(outOfService := v.outOfService + {info})
  }

  function Apply(d: Draft, call: Call): Draft {
    match call
    case OpenBrokerList => d.(phase := AddingBrokers)
    case AddBroker(id, hostname, port) =>
      if id in d.brokers then d else d.(brokers := d.brokers[id := Endpoint(hostname, port)])
    case CloseBrokerList => d.(phase := AddingTopics)
    case OpenTopic(name) =>
      if name in d.topics then d
      else d.(phase := AddingOneTopic, topics := d.topics[name := TopicView({}, {})], current := name)
    case AddPartitionToTopic(id, brokerId, canSend, errorCode) =>
      if d.current !in d.topics then d
      else
        var v := WithPartition(d.topics[d.current], d.brokers, PartitionInfo(id, brokerId, errorCode), canSend);
        d.(topics := d.topics[d.current := v])
    case CloseTopic => d.(phase := AddingTopics)
  }

  ghost predicate LeadsUsable(topics: map<string, TopicView>, brokerId: int) {
    exists n, info :: n in topics && info in topics[n].ok && info.brokerId == brokerId
  }

  /** The metadata view a finished draft stands for: a broker is in service exactly when
      it leads a usable partition. */
  ghost function ViewOfDraft(d: Draft): View {
    View(set id | id in d.brokers ::
           Broker(id, d.brokers[id].hostname, d.brokers[id].port, LeadsUsable(d.topics, id)),
         d.topics)
  }

  // ----------------------------------------------------------------- builder state

  ghost predicate BrokersIndexed(brokerMap: map<int, nat>, brokers: seq<Broker>) {
    && (forall id :: id in brokerMap ==> brokerMap[id] < |brokers| && brokers[brokerMap[id]].id == id)
    && (forall i :: 0 <= i < |brokers| ==> brokers[i].id in brokerMap && brokerMap[brokers[i].id] == i)
  }

  ghost predicate TopicsIndexed(topicIndex: map<string, nat>, count: nat) {
    && |topicIndex| == count
    && (forall n :: n in topicIndex ==> topicIndex[n] < count)
    && (forall k: nat :: k < count ==> IsIndexOfSome(topicIndex, k))
    && (forall m, n :: m in topicIndex && n in topicIndex && topicIndex[m] == topicIndex[n] ==> m == n)
  }

  ghost predicate BrokersMirrored(known: map<int, Endpoint>, brokers: seq<Broker>) {
    && (forall i :: 0 <= i < |brokers| ==>
          brokers[i].id in known && known[brokers[i].id] == Endpoint(brokers[i].hostname, brokers[i].port))
    && (forall id :: id in known ==> exists i :: 0 <= i < |brokers| && brokers[i].id == id)
  }

  ghost predicate TopicMirrored(v: TopicView, brokers: seq<Broker>, t: Topic) {
    && BrokersInRange(t.ok, |brokers|) && BrokersInRange(t.outOfService, |brokers|)
    && TopicViewOf(brokers, t) == v
  }

  ghost predicate TopicsMirrored(views: map<string, TopicView>, brokers: seq<Broker>, topics: seq<Topic>,
                                 topicIndex: map<string, nat>)
  {
    && views.Keys == topicIndex.Keys
    && (forall n :: n in topicIndex ==>
          topicIndex[n] < |topics| && TopicMirrored(views[n], brokers, topics[topicIndex[n]]))
  }

  ghost predicate OpenTopicSound(t: Topic, seen: set<int>) {
    && t.all == [] && t.choices == map[]
    && DistinctIds(t.ok + t.outOfService)
    && Ids(t.ok + t.outOfService) == seen
  }

  /** All fields of the builder, with the draft they stand for. */
  datatype Fields = Fields(
    phase: Phase,
    brokerMap: map<int, nat>,
    brokers: seq<Broker>,
    vec: seq<int>,
    topics: seq<Topic>,
    topicIndex: map<string, nat>,
    currentName: string,
    currentIndex: nat,
    seen: set<int>,
    draft: Draft)

  ghost function ClosedTopics(f: Fields): seq<Topic> {
    if f.phase.AddingOneTopic? && f.topics != [] then f.topics[..|f.topics| - 1] else f.topics
  }

  ghost predicate CurrentTopicSound(f: Fields) {
    && |f.topics| > 0 && f.currentIndex == |f.topics| - 1
    && f.currentName == f.draft.current && f.currentName in f.topicIndex
    && f.topicIndex[f.currentName] == f.currentIndex
    && OpenTopicSound(f.topics[f.currentIndex], f.seen)
  }

  ghost predicate Sound(f: Fields) {
    && f.phase == f.draft.phase
    && (f.phase.Initial? || f.phase.AddingBrokers? ==> f.topics == [])
    && BrokersIndexed(f.brokerMap, f.brokers)
    && TopicsIndexed(f.topicIndex, |f.topics|)
    && BrokersMirrored(f.draft.brokers, f.brokers)
    && TopicsMirrored(f.draft.topics, f.brokers, f.topics, f.topicIndex)
    && Consistent(f.brokers, f.vec, ClosedTopics(f), f.topicIndex)
    && (f.phase.AddingOneTopic? ==> CurrentTopicSound(f))
  }

  class Builder {
    var phase: Phase
    var brokerMap: map<int, nat>
    var currentTopicName: string
    var currentTopicIndex: nat
    var currentTopicPartitions: set<int>
    var brokers: seq<Broker>
    var inServiceBrokerCount: nat
    var topicBrokerVec: seq<int>
    var topics: seq<Topic>
    var topicNameToIndex: map<string, nat>

    ghost var draft: Draft

    ghost function All(): Fields
      reads this
    {
      Fields(phase, brokerMap, brokers, topicBrokerVec, topics, topicNameToIndex,
             currentTopicName, currentTopicIndex, currentTopicPartitions, draft)
    }

    ghost predicate Valid()
      reads this
    {
      Sound(All())
    }

    constructor ()
      ensures Valid() && draft == NO_DRAFT
    {
      hide Sound;
      phase, brokerMap := Initial, map[];
      currentTopicName, currentTopicIndex, currentTopicPartitions := "", 0, {};
      brokers, inServiceBrokerCount, topicBrokerVec := [], 0, [];
      topics, topicNameToIndex := [], map[];
      draft := NO_DRAFT;
      new;
      NothingIsSound();
    }

    method OpenBrokerList()
      requires Valid() && phase.Initial?
      modifies this
      ensures Valid() && draft == Apply(old(draft), Call.OpenBrokerList)
    {
      phase := AddingBrokers;
      draft := Apply(draft, Call.OpenBrokerList);
    }

    method AddBroker(kafkaId: int, hostname: string, port: nat)
      requires Valid() && phase.AddingBrokers?
      modifies this
      ensures Valid() && draft == Apply(old(draft), Call.AddBroker(kafkaId, hostname, port))
    {
      hide Sound;
      BrokerAdded(All(), kafkaId, hostname, port);
      draft := Apply(draft, Call.AddBroker(kafkaId, hostname, port));
      if kafkaId !in brokerMap {
        brokerMap := brokerMap[kafkaId := |brokers|];
        brokers := brokers + [Broker(kafkaId, hostname, port, false)];
      }
    }

    method CloseBrokerList()
      requires Valid() && phase.AddingBrokers?
      modifies this
      ensures Valid() && draft == Apply(old(draft), Call.CloseBrokerList)
    {
      phase := AddingTopics;
      draft := Apply(draft, Call.CloseBrokerList);
    }

    method OpenTopic(name: string) returns (success: bool)
      requires Valid() && phase.AddingTopics?
      modifies this
      ensures Valid() && draft == Apply(old(draft), Call.OpenTopic(name))
      ensures success <==> name !in old(draft).topics
    {
      hide Sound;
      TopicOpened(All(), name);
      success := name !in topicNameToIndex;
      draft := Apply(draft, Call.OpenTopic(name));
      if success {
        topicNameToIndex := topicNameToIndex[name := |topics|];
        currentTopicIndex := |topics|;
        topics := topics + [Topic([], [], [], map[])];
        currentTopicPartitions := {};
        phase := AddingOneTopic;
        currentTopicName := name;
      }
    }

    method AddPartitionToTopic(partitionId: int, brokerId: int, canSend: bool, errorCode: int)
      requires Valid() && phase.AddingOneTopic?
      modifies this
      ensures Valid()
      ensures draft == Apply(old(draft), Call.AddPartitionToTopic(partitionId, brokerId, canSend, errorCode))
    {
      hide Sound;
      PartitionAdded(All(), partitionId, brokerId, canSend, errorCode);
      draft := Apply(draft, Call.AddPartitionToTopic(partitionId, brokerId, canSend, errorCode));
      if brokerId !in brokerMap {
        return;
      }
      var brokerIndex := brokerMap[brokerId];
      if partitionId in currentTopicPartitions {
        return;
      }
      currentTopicPartitions := currentTopicPartitions + {partitionId};
      var p := Partition(partitionId, brokerIndex, errorCode);
      var t := topics[currentTopicIndex];
      if canSend {
        t := t.(ok := t.ok + [p]);
      } else {
        t := t.(outOfService := t.outOfService + [p]);
      }
      topics := topics[currentTopicIndex := t];
    }

    method CloseTopic()
      requires Valid() && phase.AddingOneTopic?
      modifies this
      ensures Valid() && draft == Apply(old(draft), Call.CloseTopic)
    {
      hide Sound, PackedFrom, Ordered;
      CurrentTopic(All());
      var t := topics[currentTopicIndex];
      var ps := Sort(t.ok, ByBrokerThenId);
      SameElements(t.ok, ps);
      var packed := Pack(ps, Packed(brokers, topicBrokerVec, map[]));
      var all := Sort(t.ok + t.outOfService, ById);
      var ok := Shuffle(ps);
      var closed := Topic(ok, t.outOfService, all, packed.choices);
      TopicClosed(All(), ps, packed, closed);
      brokers, topicBrokerVec := packed.brokers, packed.vec;
      topics := topics[currentTopicIndex := closed];
      currentTopicName := "";
      phase := AddingTopics;
      draft := Apply(draft, Call.CloseTopic);
    }

    method Build() returns (md: Metadata)
      requires Valid() && (phase.Initial? || phase.AddingTopics?)
      modifies this
      ensures WellFormed(md)
      ensures ViewOf(md) == ViewOfDraft(old(draft))
      ensures Valid() && draft == NO_DRAFT
    {
      hide Sound, Consistent, WellFormed;
      ghost var was := All();
      ReadyToBuild(was);
      var order, inverse, grouped, count := GroupBrokers(brokers);
      RegroupKeepsConsistent(brokers, topicBrokerVec, topics, topicNameToIndex, order, inverse);
      var remapped := RemapTopics(topics, order, inverse);
      brokers, inServiceBrokerCount, topics := grouped, count, remapped;
      md := Metadata(brokers, inServiceBrokerCount, topicBrokerVec, topics, topicNameToIndex);
      BuiltWellFormed(was, order, inverse, md);
      Reset();
    }

    method Reset()
      modifies this
      ensures Valid() && draft == NO_DRAFT
    {
      hide Sound;
      phase, brokerMap := Initial, map[];
      currentTopicName, currentTopicIndex, currentTopicPartitions := "", 0, {};
      brokers, inServiceBrokerCount, topicBrokerVec := [], 0, [];
      topics, topicNameToIndex := [], map[];
      draft := NO_DRAFT;
      NothingIsSound();
    }
  }

  // ------------------------------------------------------------- every step is sound

  lemma NothingIsSound()
    ensures Sound(Fields(Initial, map[], [], [], [], map[], "", 0, {}, NO_DRAFT))
  {
    assert OkPairs([], map[]) == {};
  }

  lemma BrokerAdded(f: Fields, id: int, hostname: string, port: nat)
    requires Sound(f) && f.phase.AddingBrokers?
    ensures
      var draft := Apply(f.draft, Call.AddBroker(id, hostname, port));
      Sound(if id in f.brokerMap then f.(draft := draft) else
        f.(brokerMap := f.brokerMap[id := |f.brokers|],
           brokers := f.brokers + [Broker(id, hostname, port, false)],
           draft := draft))
  {
    if id !in f.brokerMap {
      var brokers := f.brokers + [Broker(id, hostname, port, false)];
      assert forall i :: 0 <= i < |f.brokers| ==> brokers[i] == f.brokers[i];
      assert brokers[|f.brokers|].id == id;
      assert forall i :: 0 <= i < |brokers| ==> (brokers[i].inService <==> LeadsOkPartition([], i));
    }
  }

  lemma TopicOpened(f: Fields, name: string)
    requires Sound(f) && f.phase.AddingTopics?
    ensures name in f.topicIndex <==> name in f.draft.topics
    ensures
      var draft := Apply(f.draft, Call.OpenTopic(name));
      Sound(if name in f.topicIndex then f.(draft := draft) else
        f.(phase := AddingOneTopic, topicIndex := f.topicIndex[name := |f.topics|],
           topics := f.topics + [Topic([], [], [], map[])],
           currentName := name, currentIndex := |f.topics|, seen := {}, draft := draft))
  {
    hide Consistent, TopicsIndexed, TopicMirrored, BrokersIndexed, BrokersMirrored;
    if name !in f.topicIndex {
      var empty := Topic([], [], [], map[]);
      NewTopicIndexed(f.topicIndex, |f.topics|, name);
      NewTopicMirrored(f.brokers, empty);
      NewTopicConsistent(f.brokers, f.vec, f.topics, f.topicIndex, name);
      assert (f.topics + [empty])[..|f.topics|] == f.topics;
    }
  }

  lemma NewTopicMirrored(brokers: seq<Broker>, t: Topic)
    requires t.ok == [] && t.outOfService == []
    ensures TopicMirrored(TopicView({}, {}), brokers, t)
  {
  }

  /** A topic that is named but not yet closed adds nothing. */
  lemma NewTopicConsistent(brokers: seq<Broker>, vec: seq<int>, topics: seq<Topic>,
                           topicIndex: map<string, nat>, name: string)
    requires Consistent(brokers, vec, topics, topicIndex) && name !in topicIndex
    ensures Consistent(brokers, vec, topics, topicIndex[name := |topics|])
  {
    var index := topicIndex[name := |topics|];
    var pairs, pairs' := OkPairs(topics, topicIndex), OkPairs(topics, index);
    forall n, id ensures (n, id) in pairs <==> (n, id) in pairs' {
      OkPairsMember(topics, topicIndex, n, id);
      OkPairsMember(topics, index, n, id);
    }
    assert pairs == pairs';
  }

  lemma NewTopicIndexed(topicIndex: map<string, nat>, count: nat, name: string)
    requires TopicsIndexed(topicIndex, count) && name !in topicIndex
    ensures TopicsIndexed(topicIndex[name := count], count + 1)
  {
    var index := topicIndex[name := count];
    forall k: nat | k < count + 1 ensures IsIndexOfSome(index, k) {
      if k < count {
        assert IsIndexOfSome(topicIndex, k);
        var n :| n in topicIndex && topicIndex[n] == k;
        assert index[n] == k;
      } else {
        assert index[name] == k;
      }
    }
  }

  lemma PartitionAdded(f: Fields, id: int, brokerId: int, canSend: bool, errorCode: int)
    requires Sound(f) && f.phase.AddingOneTopic?
    ensures f.currentIndex < |f.topics|
    ensures
      var draft := Apply(f.draft, Call.AddPartitionToTopic(id, brokerId, canSend, errorCode));
      Sound(if brokerId !in f.brokerMap || id in f.seen then f.(draft := draft) else
        var p := Partition(id, f.brokerMap[brokerId], errorCode);
        f.(seen := f.seen + {id}, draft := draft,
           topics := f.topics[f.currentIndex := Extended(f.topics[f.currentIndex], p, canSend)]))
  {
    hide Consistent, TopicsIndexed, BrokersMirrored, OpenTopicSound, TopicViewOf;
    var t, v := f.topics[f.currentIndex], f.draft.topics[f.currentName];
    var info := PartitionInfo(id, brokerId, errorCode);
    assert TopicMirrored(v, f.brokers, t);
    KnownBrokers(f, brokerId);
    SeenAreInfoIds(f.brokers, t, f.seen);
    if brokerId in f.brokerMap && id !in f.seen {
      var p := Partition(id, f.brokerMap[brokerId], errorCode);
      ExtendedSound(t, p, canSend, f.seen);
      ExtendedMirrors(f.brokers, t, p, canSend);
      CurrentMirrors(f, Extended(t, p, canSend), WithPartition(v, f.draft.brokers, info, canSend));
      var topics := f.topics[f.currentIndex := Extended(t, p, canSend)];
      assert topics[..|topics| - 1] == f.topics[..|topics| - 1];
    } else {
      assert f.draft.topics[f.currentName := v] == f.draft.topics;
    }
  }

  lemma KnownBrokers(f: Fields, id: int)
    requires BrokersIndexed(f.brokerMap, f.brokers) && BrokersMirrored(f.draft.brokers, f.brokers)
    ensures id in f.brokerMap <==> id in f.draft.brokers
  {
  }

  lemma CurrentMirrors(f: Fields, t: Topic, v: TopicView)
    requires TopicsMirrored(f.draft.topics, f.brokers, f.topics, f.topicIndex) &&
      TopicsIndexed(f.topicIndex, |f.topics|)
    requires CurrentTopicSound(f) && TopicMirrored(v, f.brokers, t)
    ensures TopicsMirrored(f.draft.topics[f.currentName := v], f.brokers,
                           f.topics[f.currentIndex := t], f.topicIndex)
  {
  }

  function Extended(t: Topic, p: Partition, canSend: bool): Topic {
    if canSend then t.(ok := t.ok + [p]) else t.(outOfService := t.outOfService + [p])
  }

  lemma SeenAreInfoIds(brokers: seq<Broker>, t: Topic, seen: set<int>)
    requires BrokersInRange(t.ok, |brokers|) && BrokersInRange(t.outOfService, |brokers|)
    requires OpenTopicSound(t, seen)
    ensures
      var v := TopicViewOf(brokers, t);
      seen == InfoIds(v.ok) + InfoIds(v.outOfService)
  {
    forall p | p in t.ok ensures p.id in InfoIds(InfosOf(brokers, t.ok)) {
      assert InfoOf(brokers, p) in InfosOf(brokers, t.ok);
    }
    forall p | p in t.outOfService ensures p.id in InfoIds(InfosOf(brokers, t.outOfService)) {
      assert InfoOf(brokers, p) in InfosOf(brokers, t.outOfService);
    }
  }

  lemma ExtendedMirrors(brokers: seq<Broker>, t: Topic, p: Partition, canSend: bool)
    requires BrokersInRange(t.ok, |brokers|) && BrokersInRange(t.outOfService, |brokers|)
    requires p.brokerIndex < |brokers|
    ensures
      var v := TopicViewOf(brokers, t);
      TopicMirrored(
        if canSend then v.(ok := v.ok + {InfoOf(brokers, p)})
        else v.(outOfService := v.outOfService + {InfoOf(brokers, p)}),
        brokers, Extended(t, p, canSend))
  {
  }

  lemma ExtendedSound(t: Topic, p: Partition, canSend: bool, seen: set<int>)
    requires OpenTopicSound(t, seen) && p.id !in seen
    ensures OpenTopicSound(Extended(t, p, canSend), seen + {p.id})
  {
    var t' := Extended(t, p, canSend);
    var ps, ps' := t.ok + t.outOfService, t'.ok + t'.outOfService;
    assert multiset(ps') == multiset(ps + [p]);
    SameElements(ps', ps + [p]);
    forall i | 0 <= i < |ps| ensures ps[i].id != p.id {
      assert ps[i].id in Ids(ps);
    }
    DistinctSurvivesPermutation(ps + [p], ps');
  }

  lemma CurrentTopic(f: Fields)
    requires Sound(f) && f.phase.AddingOneTopic?
    ensures f.currentIndex < |f.topics|
    ensures BrokersInRange(f.topics[f.currentIndex].ok, |f.brokers|)
    ensures BrokersInRange(f.topics[f.currentIndex].outOfService, |f.brokers|)
  {
  }

  lemma TopicClosed(f: Fields, ps: seq<Partition>, packed: Packed, t: Topic)
    requires Sound(f) && f.phase.AddingOneTopic?
    requires Ordered(ByBrokerThenId, ps) && multiset(ps) == multiset(f.topics[f.currentIndex].ok)
    requires PackedFrom(ps, |ps|, Packed(f.brokers, f.vec, map[]), packed)
    requires multiset(t.ok) == multiset(ps) && t.outOfService == f.topics[f.currentIndex].outOfService
    requires Ordered(ById, t.all) && multiset(t.all) == multiset(f.topics[f.currentIndex].ok + t.outOfService)
    requires t.choices == packed.choices
    ensures Sound(f.(phase := AddingTopics, brokers := packed.brokers, vec := packed.vec,
                     topics := f.topics[f.currentIndex := t], currentName := "",
                     draft := Apply(f.draft, Call.CloseTopic)))
  {
    hide Consistent, TopicsMirrored, Ordered, ChunksAreRuns, PartitionsSane, MarkedInService;
    var open, closed := f.topics[f.currentIndex], ClosedTopics(f);
    CurrentTopic(f);
    assert ps[..|ps|] == ps;
    MergedPartitions(t, open.ok, |f.brokers|);
    MarkedBrokers(f, BrokersOf(ps));
    CloseKeepsConsistent(f.brokers, f.vec, closed, f.topicIndex, f.currentName, t, ps);
    assert f.topics[f.currentIndex := t] == closed + [t];
    ClosedMirrors(f.draft.topics, f.brokers, f.topics, f.topicIndex, f.currentName, t, BrokersOf(ps));
  }

  lemma MarkedBrokers(f: Fields, which: set<nat>)
    requires BrokersIndexed(f.brokerMap, f.brokers) && BrokersMirrored(f.draft.brokers, f.brokers)
    ensures BrokersIndexed(f.brokerMap, MarkedInService(f.brokers, which))
    ensures BrokersMirrored(f.draft.brokers, MarkedInService(f.brokers, which))
  {
  }

  lemma MarkedInfos(brokers: seq<Broker>, which: set<nat>, ps: seq<Partition>)
    requires BrokersInRange(ps, |brokers|)
    ensures InfosOf(MarkedInService(brokers, which), ps) == InfosOf(brokers, ps)
  {
  }

  /** Closing a topic changes nothing that the draft can see. */
  lemma ClosedMirrors(views: map<string, TopicView>, brokers: seq<Broker>, topics: seq<Topic>,
                      topicIndex: map<string, nat>, name: string, t': Topic, which: set<nat>)
    requires TopicsMirrored(views, brokers, topics, topicIndex) && TopicsIndexed(topicIndex, |topics|)
    requires name in topicIndex
    requires multiset(t'.ok) == multiset(topics[topicIndex[name]].ok)
    requires t'.outOfService == topics[topicIndex[name]].outOfService
    ensures TopicsMirrored(views, MarkedInService(brokers, which), topics[topicIndex[name] := t'], topicIndex)
  {
    var topics', brokers' := topics[topicIndex[name] := t'], MarkedInService(brokers, which);
    SameElements(t'.ok, topics[topicIndex[name]].ok);
    forall n | n in topicIndex ensures TopicMirrored(views[n], brokers', topics'[topicIndex[n]]) {
      var t := topics[topicIndex[n]];
      assert TopicMirrored(views[n], brokers, t);
      MarkedInfos(brokers, which, t.ok);
      MarkedInfos(brokers, which, t.outOfService);
      if n == name {
        assert InfosOf(brokers', t'.ok) == InfosOf(brokers', t.ok);
      }
    }
  }

  // ------------------------------------------------------------- the finished product

  lemma ReadyToBuild(f: Fields)
    requires Sound(f) && !f.phase.AddingOneTopic?
    ensures Consistent(f.brokers, f.vec, f.topics, f.topicIndex)
    ensures forall k :: 0 <= k < |f.topics| ==> f.topics[k].choices.Keys == BrokersOf(f.topics[k].ok)
  {
  }

  lemma BuiltWellFormed(f: Fields, order: seq<nat>, inverse: seq<nat>, md: Metadata)
    requires Sound(f) && !f.phase.AddingOneTopic?
    requires Inverses(order, inverse) && |order| == |f.brokers|
    requires forall k :: 0 <= k < |f.topics| ==> Remappable(f.topics[k], |order|)
    requires md.brokers == Reordered(f.brokers, order) && md.topics == RemappedTopics(f.topics, order, inverse)
    requires md.topicIndex == f.topicIndex && md.topicBrokerVec == f.vec
    requires Consistent(md.brokers, md.topicBrokerVec, md.topics, md.topicIndex)
    requires md.inServiceCount <= |md.brokers|
    requires forall i :: 0 <= i < |md.brokers| ==> (md.brokers[i].inService <==> i < md.inServiceCount)
    ensures WellFormed(md) && ViewOf(md) == ViewOfDraft(f.draft)
  {
    hide Consistent, BrokersMirrored, TopicsMirrored, TopicMirrored;
    InServicePrefix(md.brokers, md.inServiceCount);
    ReorderedBrokers(f, order, inverse);
    RemappedMirrors(f, order, inverse);
    ConsistentIsSane(md);
    MirroredView(f.draft, md);
  }

  lemma ConsistentIsSane(md: Metadata)
    requires Consistent(md.brokers, md.topicBrokerVec, md.topics, md.topicIndex)
    requires TopicsIndexed(md.topicIndex, |md.topics|)
    requires md.inServiceCount == |InServiceIndexes(md.brokers)|
    ensures Sane(md) && |md.topicBrokerVec| == |OkPairs(md.topics, md.topicIndex)|
  {
  }

  lemma ReorderedBrokers(f: Fields, order: seq<nat>, inverse: seq<nat>)
    requires BrokersIndexed(f.brokerMap, f.brokers) && BrokersMirrored(f.draft.brokers, f.brokers)
    requires Inverses(order, inverse) && |order| == |f.brokers|
    ensures
      var brokers := Reordered(f.brokers, order);
      && BrokersMirrored(f.draft.brokers, brokers)
      && forall i, j :: 0 <= i < j < |brokers| ==> brokers[i].id != brokers[j].id
  {
    var brokers := Reordered(f.brokers, order);
    forall i, j | 0 <= i < j < |brokers| ensures brokers[i].id != brokers[j].id {
      assert inverse[order[i]] == i && inverse[order[j]] == j;
    }
    forall id | id in f.draft.brokers ensures exists i :: 0 <= i < |brokers| && brokers[i].id == id {
      var j :| 0 <= j < |f.brokers| && f.brokers[j].id == id;
      assert brokers[inverse[j]] == f.brokers[j];
    }
  }

  lemma RemappedMirrors(f: Fields, order: seq<nat>, inverse: seq<nat>)
    requires TopicsMirrored(f.draft.topics, f.brokers, f.topics, f.topicIndex)
    requires Inverses(order, inverse) && |order| == |f.brokers|
    requires forall k :: 0 <= k < |f.topics| ==> Remappable(f.topics[k], |order|)
    ensures TopicsMirrored(f.draft.topics, Reordered(f.brokers, order), RemappedTopics(f.topics, order, inverse),
      f.topicIndex)
  {
    forall n | n in f.topicIndex
      ensures TopicMirrored(f.draft.topics[n], Reordered(f.brokers, order),
                            RemappedTopic(f.topics[f.topicIndex[n]], order, inverse))
    {
      var t := f.topics[f.topicIndex[n]];
      assert TopicMirrored(f.draft.topics[n], f.brokers, t);
      RemappedInfos(f.brokers, t.ok, order, inverse);
      RemappedInfos(f.brokers, t.outOfService, order, inverse);
    }
  }

  lemma LeadsMirrored(views: map<string, TopicView>, md: Metadata, i: nat)
    requires TopicsMirrored(views, md.brokers, md.topics, md.topicIndex)
    requires forall k: nat :: k < |md.topics| ==> IsIndexOfSome(md.topicIndex, k)
    requires forall j, k :: 0 <= j < k < |md.brokers| ==> md.brokers[j].id != md.brokers[k].id
    requires i < |md.brokers|
    ensures LeadsOkPartition(md.topics, i) <==> LeadsUsable(views, md.brokers[i].id)
  {
    if LeadsOkPartition(md.topics, i) {
      var k: nat :| k < |md.topics| && i in BrokersOf(md.topics[k].ok);
      var p :| p in md.topics[k].ok && p.brokerIndex == i;
      assert IsIndexOfSome(md.topicIndex, k);
      var n :| n in md.topicIndex && md.topicIndex[n] == k;
      assert TopicMirrored(views[n], md.brokers, md.topics[k]);
      assert InfoOf(md.brokers, p) in views[n].ok;
    }
    if LeadsUsable(views, md.brokers[i].id) {
      var n, info :| n in views && info in views[n].ok && info.brokerId == md.brokers[i].id;
      assert TopicMirrored(views[n], md.brokers, md.topics[md.topicIndex[n]]);
      var p :| p in md.topics[md.topicIndex[n]].ok && InfoOf(md.brokers, p) == info;
      assert p.brokerIndex == i;
    }
  }

  /** Metadata that mirrors a draft has the draft's view. */
  lemma MirroredView(d: Draft, md: Metadata)
    requires WellFormed(md) && BrokersMirrored(d.brokers, md.brokers)
    requires TopicsMirrored(d.topics, md.brokers, md.topics, md.topicIndex)
    ensures ViewOf(md) == ViewOfDraft(d)
  {
    hide LeadsOkPartition, LeadsUsable, TopicSane, CoverCount;
    assert ViewOf(md).topics == d.topics by {
      assert forall n :: n in d.topics ==> TopicMirrored(d.topics[n], md.brokers, md.topics[md.topicIndex[n]]);
    }
    forall i | 0 <= i < |md.brokers|
      ensures
        var id := md.brokers[i].id;
        id in d.brokers &&
        md.brokers[i] == Broker(id, d.brokers[id].hostname, d.brokers[id].port, LeadsUsable(d.topics, id))
    {
      LeadsMirrored(d.topics, md, i);
    }
    assert ViewOf(md).brokers == ViewOfDraft(d).brokers;
  }

  // ------------------------------------------------------------------ every call sequence

  function ApplyAll(d: Draft, calls: seq<Call>): Draft
    decreases |calls|
  {
    if calls == [] then d else ApplyAll(Apply(d, calls[0]), calls[1..])
  }

  predicate LegalAll(d: Draft, calls: seq<Call>)
    decreases |calls|
  {
    calls == [] || (Legal(d, calls[0]) && LegalAll(Apply(d, calls[0]), calls[1..]))
  }

  lemma {:induction false} ApplyLast(d: Draft, calls: seq<Call>, c: Call)
    ensures ApplyAll(d, calls + [c]) == Apply(ApplyAll(d, calls), c)
    decreases |calls|
  {
    if calls == [] {
      assert ([] + [c])[1..] == [];
    } else {
      ApplyLast(Apply(d, calls[0]), calls[1..], c);
      assert (calls + [c])[1..] == calls[1..] + [c];
    }
  }

  ghost predicate NamesBroker(c: Call, id: int) {
    c.AddBroker? && c.kafkaId == id
  }

  /** A broker is known exactly when some call names it, with the address of the first call
      that does. */
  lemma {:induction false} BrokerFromFirstCall(calls: seq<Call>, id: int)
    ensures
      var known := ApplyAll(NO_DRAFT, calls).brokers;
      if id in known then
        exists i :: 0 <= i < |calls| && calls[i] == AddBroker(id, known[id].hostname, known[id].port)
          && forall j :: 0 <= j < i ==> !NamesBroker(calls[j], id)
      else
        forall i :: 0 <= i < |calls| ==> !NamesBroker(calls[i], id)
  {
    if calls == [] {
    } else {
      var n := |calls| - 1;
      BrokerFromFirstCall(calls[..n], id);
      assert calls == calls[..n] + [calls[n]];
      ApplyLast(NO_DRAFT, calls[..n], calls[n]);
      var known := ApplyAll(NO_DRAFT, calls[..n]).brokers;
      hide ApplyAll;
      if id in known {
        var i :| 0 <= i < n && calls[..n][i] == AddBroker(id, known[id].hostname, known[id].port)
          && forall j :: 0 <= j < i ==> !NamesBroker(calls[..n][j], id);
        assert calls[i] == calls[..n][i] && forall j :: 0 <= j < i ==> calls[j] == calls[..n][j];
      } else {
        assert forall j :: 0 <= j < n ==> calls[j] == calls[..n][j];
        if NamesBroker(calls[n], id) {
          assert calls[n] == AddBroker(id, calls[n].hostname, calls[n].port);
        }
      }
    }
  }

  /** The i-th call is about this partition of this topic, on a broker that is known. */
  ghost predicate NamesPartition(calls: seq<Call>, i: int, topic: string, id: int) {
    && 0 <= i < |calls| && calls[i].AddPartitionToTopic? && calls[i].partitionId == id
    && var d := ApplyAll(NO_DRAFT, calls[..i]);
       d.current == topic && topic in d.topics && calls[i].brokerId in d.brokers
  }

  /** It is the first one, and says this about the partition. */
  ghost predicate FirstSays(calls: seq<Call>, i: int, topic: string, info: PartitionInfo, canSend: bool) {
    && NamesPartition(calls, i, topic, info.id)
    && calls[i] == AddPartitionToTopic(info.id, info.brokerId, canSend, info.errorCode)
    && forall j :: 0 <= j < i ==> !NamesPartition(calls, j, topic, info.id)
  }

  ghost function ViewIn(d: Draft, topic: string): TopicView {
    if topic in d.topics then d.topics[topic] else TopicView({}, {})
  }

  /** What is said about a partition is what the first call about it says. */
  lemma {:induction false} PartitionFromFirstCall(calls: seq<Call>, topic: string, info: PartitionInfo)
    ensures
      var v := ViewIn(ApplyAll(NO_DRAFT, calls), topic);
      && (info in v.ok <==> exists i :: FirstSays(calls, i, topic, info, true))
      && (info in v.outOfService <==> exists i :: FirstSays(calls, i, topic, info, false))
      && (info.id in InfoIds(v.ok) + InfoIds(v.outOfService) <==>
          exists i :: NamesPartition(calls, i, topic, info.id))
  {
    if calls == [] {
    } else {
      var n := |calls| - 1;
      var before, c := calls[..n], calls[n];
      PartitionFromFirstCall(before, topic, info);
      assert calls == before + [c];
      ApplyLast(NO_DRAFT, before, c);
      hide ApplyAll;
      NamesBefore(calls, topic, info);
      var d := ApplyAll(NO_DRAFT, before);
      PartitionStep(d, c, topic, info);
      if NamesPartition(calls, n, topic, info.id) && !exists i :: NamesPartition(before, i, topic, info.id) {
        var said := PartitionInfo(c.partitionId, c.brokerId, c.errorCode);
        assert FirstSays(calls, n, topic, said, c.canSend);
      }
    }
  }

  lemma NamesBefore(calls: seq<Call>, topic: string, info: PartitionInfo)
    requires calls != []
    ensures
      var n := |calls| - 1;
      && (forall i :: i != n ==> (NamesPartition(calls, i, topic, info.id) <==>
                                  NamesPartition(calls[..n], i, topic, info.id)))
      && (forall i, s :: i != n ==> (FirstSays(calls, i, topic, info, s) <==> FirstSays(calls[..n], i, topic, info, s)))
  {
    hide ApplyAll;
    var n := |calls| - 1;
    forall i | i != n
      ensures NamesPartition(calls, i, topic, info.id) <==> NamesPartition(calls[..n], i, topic, info.id)
    {
      if 0 <= i < n {
        assert calls[..n][..i] == calls[..i];
      }
    }
  }

  lemma PartitionStep(d: Draft, c: Call, topic: string, info: PartitionInfo)
    ensures
      var v, v' := ViewIn(d, topic), ViewIn(Apply(d, c), topic);
      var known := info.id in InfoIds(v.ok) + InfoIds(v.outOfService);
      var named := c.AddPartitionToTopic? && c.partitionId == info.id && d.current == topic && topic in d.topics
                   && c.brokerId in d.brokers;
      var said := named && !known && c.brokerId == info.brokerId && c.errorCode == info.errorCode;
      && (info in v'.ok <==> info in v.ok || (said && c.canSend))
      && (info in v'.outOfService <==> info in v.outOfService || (said && !c.canSend))
      && (info.id in InfoIds(v'.ok) + InfoIds(v'.outOfService) <==> known || named)
  {
    var v, v' := ViewIn(d, topic), ViewIn(Apply(d, c), topic);
    if c.AddPartitionToTopic? && d.current == topic && topic in d.topics && v' != v {
      var new' := PartitionInfo(c.partitionId, c.brokerId, c.errorCode);
      assert InfoIds(v.ok + {new'}) == InfoIds(v.ok) + {new'.id};
      assert InfoIds(v.outOfService + {new'}) == InfoIds(v.outOfService) + {new'.id};
    }
  }

  method Perform(builder: Builder, call: Call)
    requires builder.Valid() && Legal(builder.draft, call)
    modifies builder
    ensures builder.Valid() && builder.draft == Apply(old(builder.draft), call)
  {
    assert builder.phase == builder.draft.phase;
    hide Sound;
    match call
    case OpenBrokerList => builder.OpenBrokerList();
    case AddBroker(id, hostname, port) => builder.AddBroker(id, hostname, port);
    case CloseBrokerList => builder.CloseBrokerList();
    case OpenTopic(name) => var _ := builder.OpenTopic(name);
    case AddPartitionToTopic(id, brokerId, canSend, errorCode) =>
      builder.AddPartitionToTopic(id, brokerId, canSend, errorCode);
    case CloseTopic => builder.CloseTopic();
  }

  /** Any legal sequence of calls, duplicates and unknown brokers included, builds
      well-formed metadata that says what the calls said. */
  method BuildFrom(calls: seq<Call>) returns (md: Metadata)
    requires LegalAll(NO_DRAFT, calls)
    requires var p := ApplyAll(NO_DRAFT, calls).phase; p.Initial? || p.AddingTopics?
    ensures WellFormed(md)
    ensures ViewOf(md) == ViewOfDraft(ApplyAll(NO_DRAFT, calls))
  {
    var builder := new Builder();
    for i := 0 to |calls|
      invariant builder.Valid() && fresh(builder)
      invariant LegalAll(builder.draft, calls[i..])
      invariant ApplyAll(builder.draft, calls[i..]) == ApplyAll(NO_DRAFT, calls)
    {
      hide Sound;
      assert calls[i..][1..] == calls[i + 1..];
      Perform(builder, calls[i]);
    }
    md := builder.Build();
  }

  /** The view determines the content of the calls: nothing the calls said is lost. */
  lemma ViewDeterminesDraft(d: Draft, d': Draft)
    ensures ViewOfDraft(d) == ViewOfDraft(d') <==> d.brokers == d'.brokers && d.topics == d'.topics
  {
    if ViewOfDraft(d) == ViewOfDraft(d') {
      DraftBrokersFromView(d, d');
      DraftBrokersFromView(d', d);
      assert d.brokers.Keys == d'.brokers.Keys;
      assert forall id :: id in d.brokers.Keys ==> d.brokers[id] == d'.brokers[id];
      assert d.brokers == d'.brokers;
    }
  }

  lemma DraftBrokersFromView(d: Draft, d': Draft)
    requires ViewOfDraft(d).brokers == ViewOfDraft(d').brokers
    ensures d.brokers.Keys <= d'.brokers.Keys
    ensures forall id :: id in d.brokers ==> d'.brokers[id] == d.brokers[id]
  {
    forall id | id in d.brokers ensures id in d'.brokers && d'.brokers[id] == d.brokers[id] {
      var b := Broker(id, d.brokers[id].hostname, d.brokers[id].port, LeadsUsable(d.topics, id));
      assert b in ViewOfDraft(d).brokers;
      assert b in ViewOfDraft(d').brokers;
    }
  }
}
