/** Choosing a partition for a message that carries a partition key. */
module KeyRouting {
  import opened Arithmetic
  import opened Metadata
  import opened MetadataCompare
  import opened Options
  import opened Regrouping

  /** static_cast<uint32_t> of an int32_t key, reduced to a starting position. */
  function StartIndex(key: int, count: nat): nat
    requires count > 0
  {
    (key % 0x1_0000_0000) % count
  }

  predicate OnLiveBroker(brokers: seq<Broker>, p: Partition) {
    p.brokerIndex < |brokers| && brokers[p.brokerIndex].inService
  }

  /** Which positions of a partition list a key may stop at. */
  function LivePositions(brokers: seq<Broker>, ps: seq<Partition>): seq<bool> {
    seq(|ps|, i requires 0 <= i < |ps| => OnLiveBroker(brokers, ps[i]))
  }

  /** The position reached after walking some steps forward from start, wrapping. */
  function Walk(start: nat, steps: nat, count: nat): nat
    requires start < count && steps <= count
  {
    if start + steps < count then start + steps else start + steps - count
  }

  /** The first live position in cyclic order from start is the one after these steps. */
  ghost predicate StopsAfter(live: seq<bool>, start: nat, steps: nat) {
    && start < |live| && steps < |live|
    && live[Walk(start, steps, |live|)]
    && forall s: nat :: s < steps ==> !live[Walk(start, s, |live|)]
  }

  /** The walk from start reaches every position exactly once in |live| steps. */
  lemma WalkReaches(start: nat, position: nat, count: nat) returns (steps: nat)
    requires start < count && position < count
    ensures steps < count && Walk(start, steps, count) == position
  {
    steps := if start <= position then position - start else position + count - start;
  }

  /** ChoosePartitionByKey.  None stands for the Die call. */
  method ChoosePartitionByKey(brokers: seq<Broker>, all: seq<Partition>, key: int)
    returns (r: Option<Partition>, ghost steps: nat)
    requires all != []
    ensures r.Some? <==> HasLive(brokers, all)
    ensures r.Some? ==>
      && StopsAfter(LivePositions(brokers, all), StartIndex(key, |all|), steps)
      && r.value == all[Walk(StartIndex(key, |all|), steps, |all|)]
      && r.value == ChosenPartition(brokers, all, key)
  {
    var start := StartIndex(key, |all|);
    var index := start;
    steps := 0;
    while true
      invariant steps < |all| && index == Walk(start, steps, |all|)
      invariant forall s: nat :: s < steps ==> !OnLiveBroker(brokers, all[Walk(start, s, |all|)])
      decreases |all| - steps
    {
      if OnLiveBroker(brokers, all[index]) {
        ChosenStepsStops(LivePositions(brokers, all), start, 0, steps);
        return Some(all[index]), steps;
      }
      NextIndex(start, steps, |all|);
      index := (index + 1) % |all|;
      if index == start {
        forall i: nat | i < |all| ensures !OnLiveBroker(brokers, all[i]) {
          var s := WalkReaches(start, i, |all|);
          assert s <= steps;
        }
        return None, steps;
      }
      steps := steps + 1;
    }
  }

  lemma NextIndex(start: nat, steps: nat, count: nat)
    requires start < count && steps < count
    ensures (Walk(start, steps, count) + 1) % count == Walk(start, steps + 1, count)
    ensures Walk(start, steps + 1, count) == start <==> steps + 1 == count
  {
    var next := Walk(start, steps, count) + 1;
    if next < count { SmallMod(next, count); }
  }

  /** The choice as a function, for use in specifications. */
  ghost function ChosenSteps(live: seq<bool>, start: nat, from: nat): nat
    requires start < |live|
    ensures ChosenSteps(live, start, from) <= |live|
    decreases |live| - from
  {
    if from >= |live| then |live|
    else if live[Walk(start, from, |live|)] then from
    else ChosenSteps(live, start, from + 1)
  }

  lemma {:induction false} ChosenStepsStops(live: seq<bool>, start: nat, from: nat, steps: nat)
    requires StopsAfter(live, start, steps) && from <= steps
    ensures ChosenSteps(live, start, from) == steps
    decreases steps - from
  {
    if from == steps {
    } else {
      ChosenStepsStops(live, start, from + 1, steps);
    }
  }

  ghost predicate HasLive(brokers: seq<Broker>, ps: seq<Partition>) {
    exists p :: p in ps && OnLiveBroker(brokers, p)
  }

  lemma ChosenStops(brokers: seq<Broker>, all: seq<Partition>, key: int)
    requires HasLive(brokers, all)
    ensures
      var live, start := LivePositions(brokers, all), StartIndex(key, |all|);
      StopsAfter(live, start, ChosenSteps(live, start, 0))
  {
    var p :| p in all && OnLiveBroker(brokers, p);
    var i :| 0 <= i < |all| && all[i] == p;
    var s := WalkReaches(StartIndex(key, |all|), i, |all|);
    StopsSomewhere(LivePositions(brokers, all), StartIndex(key, |all|), s);
  }

  ghost function ChosenIndex(brokers: seq<Broker>, all: seq<Partition>, key: int): (i: nat)
    requires HasLive(brokers, all)
    ensures i < |all| && OnLiveBroker(brokers, all[i])
  {
    ChosenStops(brokers, all, key);
    var start := StartIndex(key, |all|);
    Walk(start, ChosenSteps(LivePositions(brokers, all), start, 0), |all|)
  }

  ghost function ChosenPartition(brokers: seq<Broker>, all: seq<Partition>, key: int): (p: Partition)
    requires HasLive(brokers, all)
    ensures p in all && OnLiveBroker(brokers, p)
  {
    all[ChosenIndex(brokers, all, key)]
  }

  lemma {:induction false} StopsSomewhere(live: seq<bool>, start: nat, s: nat)
    requires start < |live| && s < |live| && live[Walk(start, s, |live|)]
    ensures StopsAfter(live, start, ChosenSteps(live, start, 0))
  {
    var k: nat := 0;
    while !live[Walk(start, k, |live|)]
      invariant k <= s
      invariant forall i: nat :: i < k ==> !live[Walk(start, i, |live|)]
      decreases s - k
    {
      k := k + 1;
    }
    ChosenStepsStops(live, start, 0, k);
  }

  /** A topic with a usable partition always has a place for a key. */
  lemma UsableTopicTakesKeys(md: Metadata, topic: string)
    requires Sane(md) && topic in md.topicIndex && md.topics[md.topicIndex[topic]].ok != []
    ensures HasLive(md.brokers, md.topics[md.topicIndex[topic]].all)
  {
    SaneTopicIndex(md, topic);
    OkOnLiveBrokers(md, topic);
    assert md.topics[md.topicIndex[topic]].ok[0] in md.topics[md.topicIndex[topic]].all;
  }

  // ----------------------------------------------------------- where the walk starts

  predicate IsInt32(x: int) {
    -0x8000_0000 <= x < 0x8000_0000
  }

  /** How far a position is ahead of another in cyclic order. */
  function Distance(from: nat, position: nat, count: nat): int {
    if position >= from then position - from else position + count - from
  }

  /** With the key taken as an unsigned 32-bit number, and the partition count divided out,
      the partition chosen is the one on an in-service broker that is the least distance
      ahead of the position that is left over. */
  lemma KeyChoice(brokers: seq<Broker>, all: seq<Partition>, key: int, q: nat, r: nat) returns (c: nat)
    requires IsInt32(key) && HasLive(brokers, all) && r < |all|
    requires q * |all| + r == if key >= 0 then key else key + 0x1_0000_0000
    ensures c < |all| && OnLiveBroker(brokers, all[c]) && ChosenPartition(brokers, all, key) == all[c]
    ensures forall i :: 0 <= i < |all| && OnLiveBroker(brokers, all[i]) ==>
      Distance(r, c, |all|) <= Distance(r, i, |all|)
  {
    var live := LivePositions(brokers, all);
    KeyStart(key, |all|, q, r);
    ChosenStops(brokers, all, key);
    hide StartIndex;
    var steps := ChosenSteps(live, r, 0);
    c := Walk(r, steps, |all|);
    forall i | 0 <= i < |all| && OnLiveBroker(brokers, all[i])
      ensures Distance(r, c, |all|) <= Distance(r, i, |all|)
    {
      assert live[i] && Walk(r, Distance(r, i, |all|), |all|) == i;
    }
  }

  lemma KeyStart(key: int, count: nat, q: nat, r: nat)
    requires IsInt32(key) && r < count && q * count + r == if key >= 0 then key else key + 0x1_0000_0000
    ensures StartIndex(key, count) == r
  {
    ModUnique(q * count + r, count, q, r);
    assert key % 0x1_0000_0000 == if key >= 0 then key else key + 0x1_0000_0000;
  }

  /** In particular, a key that is a live position goes there. */
  lemma SmallKey(brokers: seq<Broker>, all: seq<Partition>, key: int)
    requires IsInt32(key) && 0 <= key < |all| && OnLiveBroker(brokers, all[key])
    ensures HasLive(brokers, all) && ChosenPartition(brokers, all, key) == all[key]
  {
    assert all[key] in all;
    var c := KeyChoice(brokers, all, key, 0, key);
  }

  // ---------------------------------------------------------------- stability of keys

  /** If positions only go dead, a key whose position is still live keeps it. */
  lemma KeyKeepsLivePosition(live: seq<bool>, live': seq<bool>, start: nat, steps: nat)
    requires |live'| == |live| && forall i :: 0 <= i < |live| && live'[i] ==> live[i]
    requires StopsAfter(live, start, steps) && live'[Walk(start, steps, |live|)]
    ensures StopsAfter(live', start, steps)
  {
  }

  lemma KeyKeepsIndex(a: seq<Broker>, ps: seq<Partition>, b: seq<Broker>, qs: seq<Partition>, key: int)
    requires |qs| == |ps| && HasLive(a, ps) && OnLiveBroker(b, qs[ChosenIndex(a, ps, key)])
    requires forall i :: 0 <= i < |ps| && OnLiveBroker(b, qs[i]) ==> OnLiveBroker(a, ps[i])
    ensures HasLive(b, qs) && ChosenIndex(b, qs, key) == ChosenIndex(a, ps, key)
  {
    ChosenStops(a, ps, key);
    var live, live', start := LivePositions(a, ps), LivePositions(b, qs), StartIndex(key, |ps|);
    var steps := ChosenSteps(live, start, 0);
    assert qs[ChosenIndex(a, ps, key)] in qs;
    KeyKeepsLivePosition(live, live', start, steps);
    ChosenStepsStops(live', start, 0, steps);
  }

  /** Where the partitions are: their ids and the Kafka ids of their brokers, without the
      error codes. */
  ghost function Places(brokers: seq<Broker>, ps: seq<Partition>): seq<(int, int)>
    requires BrokersInRange(ps, |brokers|)
  {
    seq(|ps|, i requires 0 <= i < |ps| =>
      assert ps[i] in ps;
      (ps[i].id, brokers[ps[i].brokerIndex].id))
  }

  ghost predicate LiveId(brokers: seq<Broker>, id: int) {
    exists b :: b in brokers && b.id == id && b.inService
  }

  lemma LiveById(brokers: seq<Broker>, p: Partition)
    requires UniqueBrokerIds(brokers) && p.brokerIndex < |brokers|
    ensures OnLiveBroker(brokers, p) <==> LiveId(brokers, brokers[p.brokerIndex].id)
  {
  }

  lemma SamePlaceLive(a: seq<Broker>, ps: seq<Partition>, b: seq<Broker>, qs: seq<Partition>, i: nat)
    requires UniqueBrokerIds(a) && UniqueBrokerIds(b)
    requires BrokersInRange(ps, |a|) && BrokersInRange(qs, |b|) && Places(a, ps) == Places(b, qs) && i < |ps|
    ensures |qs| == |ps| && ps[i].brokerIndex < |a| && qs[i].brokerIndex < |b|
    ensures ps[i].id == qs[i].id && a[ps[i].brokerIndex].id == b[qs[i].brokerIndex].id
    ensures OnLiveBroker(a, ps[i]) <==> LiveId(a, a[ps[i].brokerIndex].id)
    ensures OnLiveBroker(b, qs[i]) <==> LiveId(b, a[ps[i].brokerIndex].id)
  {
    assert |Places(a, ps)| == |ps| && |Places(b, qs)| == |qs|;
    assert ps[i] in ps && qs[i] in qs;
    assert Places(a, ps)[i] == Places(b, qs)[i];
    LiveById(a, ps[i]);
    LiveById(b, qs[i]);
  }

  /** Two metadata have the topic's partitions at the same places, with any error codes, and
      brokers have only left service between them. Then a key keeps its partition and Kafka
      broker if and only if that broker is still in service. */
  lemma KeysKeepTheirPartition(a: seq<Broker>, ps: seq<Partition>, b: seq<Broker>, qs: seq<Partition>, key: int)
    requires UniqueBrokerIds(a) && UniqueBrokerIds(b)
    requires BrokersInRange(ps, |a|) && BrokersInRange(qs, |b|)
    requires Places(a, ps) == Places(b, qs) && HasLive(a, ps)
    requires forall id :: LiveId(b, id) ==> LiveId(a, id)
    ensures
      var p := ChosenPartition(a, ps, key);
      && p.brokerIndex < |a|
      && (LiveId(b, a[p.brokerIndex].id) <==>
          && HasLive(b, qs)
          && var q := ChosenPartition(b, qs, key);
             q.id == p.id && q.brokerIndex < |b| && b[q.brokerIndex].id == a[p.brokerIndex].id)
  {
    var i := ChosenIndex(a, ps, key);
    SamePlaceLive(a, ps, b, qs, i);
    if LiveId(b, a[ps[i].brokerIndex].id) {
      forall j | 0 <= j < |ps| && OnLiveBroker(b, qs[j]) ensures OnLiveBroker(a, ps[j]) {
        SamePlaceLive(a, ps, b, qs, j);
      }
      KeyKeepsIndex(a, ps, b, qs, key);
    }
  }

  // ------------------------------------------------------- equal metadata, equal choice

  ghost function InfoSeq(brokers: seq<Broker>, ps: seq<Partition>): seq<PartitionInfo>
    requires BrokersInRange(ps, |brokers|)
  {
    seq(|ps|, i requires 0 <= i < |ps| =>
      assert ps[i] in ps;
      InfoOf(brokers, ps[i]))
  }

  ghost predicate AscendingInfos(infos: seq<PartitionInfo>) {
    forall i, j :: 0 <= i < j < |infos| ==> infos[i].id < infos[j].id
  }

  ghost function InfoSet(infos: seq<PartitionInfo>): set<PartitionInfo> {
    set info | info in infos
  }

  lemma InfoSetEmpty(s: seq<PartitionInfo>)
    ensures InfoSet(s) == {} <==> s == []
  {
    if s != [] { assert s[0] in InfoSet(s); }
  }

  lemma {:induction false} AscendingInfosUnique(s: seq<PartitionInfo>, r: seq<PartitionInfo>)
    requires AscendingInfos(s) && AscendingInfos(r) && InfoSet(s) == InfoSet(r)
    ensures s == r
  {
    InfoSetEmpty(s);
    InfoSetEmpty(r);
    if s == [] {
    } else {
      var m, n := |s| - 1, |r| - 1;
      assert s[m] in InfoSet(r) && r[n] in InfoSet(s);
      assert s[m] == r[n];
      assert InfoSet(s[..m]) == InfoSet(s) - {s[m]};
      assert InfoSet(r[..n]) == InfoSet(r) - {r[n]};
      AscendingInfosUnique(s[..m], r[..n]);
      assert s == s[..m] + [s[m]] && r == r[..n] + [r[n]];
    }
  }

  lemma InfoSeqSet(brokers: seq<Broker>, ps: seq<Partition>)
    requires BrokersInRange(ps, |brokers|)
    ensures InfoSet(InfoSeq(brokers, ps)) == InfosOf(brokers, ps)
  {
    var infos := InfoSeq(brokers, ps);
    forall p | p in ps ensures InfoOf(brokers, p) in InfoSet(infos) {
      var i :| 0 <= i < |ps| && ps[i] == p;
      assert infos[i] == InfoOf(brokers, p);
    }
  }

  lemma UnionInfos(brokers: seq<Broker>, t: Topic)
    requires BrokersInRange(t.ok, |brokers|) && BrokersInRange(t.outOfService, |brokers|)
    requires BrokersInRange(t.all, |brokers|)
    requires forall p :: p in t.all <==> p in t.ok || p in t.outOfService
    ensures InfosOf(brokers, t.all) == InfosOf(brokers, t.ok) + InfosOf(brokers, t.outOfService)
  {
  }

  lemma AllFromView(md: Metadata, topic: string)
    requires Sane(md) && topic in md.topicIndex
    ensures
      var t, v := md.topics[md.topicIndex[topic]], ViewOf(md).topics[topic];
      && BrokersInRange(t.all, |md.brokers|)
      && AscendingInfos(InfoSeq(md.brokers, t.all))
      && InfoSet(InfoSeq(md.brokers, t.all)) == v.ok + v.outOfService
  {
    hide ChoicesSane, LeadsOkPartition, CoverCount, InfosOf, InfoSet;
    SaneTopicIndex(md, topic);
    var t, v := md.topics[md.topicIndex[topic]], ViewOf(md).topics[topic];
    AllIsUnion(t, |md.brokers|);
    InfoSeqSet(md.brokers, t.all);
    UnionInfos(md.brokers, t);
  }

  /** Metadata that operator== calls equal send every key to the same partition on the
      same Kafka broker. */
  lemma EqualMetadataSameChoice(a: Metadata, b: Metadata, topic: string, key: int)
    requires WellFormed(a) && WellFormed(b) && ViewOf(a) == ViewOf(b)
    requires topic in a.topicIndex && a.topics[a.topicIndex[topic]].ok != []
    ensures topic in b.topicIndex
    ensures
      var ps, qs := a.topics[a.topicIndex[topic]].all, b.topics[b.topicIndex[topic]].all;
      && HasLive(a.brokers, ps) && HasLive(b.brokers, qs)
      && InfoOf(a.brokers, ChosenPartition(a.brokers, ps, key)) ==
        InfoOf(b.brokers, ChosenPartition(b.brokers, qs, key))
  {
    hide TopicSane, LeadsOkPartition, OkPairs, CoverCount;
    ViewParts(a);
    ViewParts(b);
    assert topic in b.topicIndex.Keys;
    UsableTopicTakesKeys(a, topic);
    AllFromView(a, topic);
    AllFromView(b, topic);
    var ps, qs := a.topics[a.topicIndex[topic]].all, b.topics[b.topicIndex[topic]].all;
    AscendingInfosUnique(InfoSeq(a.brokers, ps), InfoSeq(b.brokers, qs));
    forall id ensures LiveId(b.brokers, id) <==> LiveId(a.brokers, id) {
      SameLiveIds(a.brokers, b.brokers, id);
    }
    SameInfosSameChoice(a.brokers, ps, b.brokers, qs, key);
  }

  lemma SameInfosSameChoice(a: seq<Broker>, ps: seq<Partition>, b: seq<Broker>, qs: seq<Partition>, key: int)
    requires UniqueBrokerIds(a) && UniqueBrokerIds(b)
    requires BrokersInRange(ps, |a|) && BrokersInRange(qs, |b|)
    requires InfoSeq(a, ps) == InfoSeq(b, qs) && HasLive(a, ps)
    requires forall id :: LiveId(b, id) <==> LiveId(a, id)
    ensures HasLive(b, qs) && InfoOf(b, ChosenPartition(b, qs, key)) == InfoOf(a, ChosenPartition(a, ps, key))
  {
    SameInfosSamePlaces(a, ps, b, qs);
    forall i | 0 <= i < |ps| ensures OnLiveBroker(b, qs[i]) <==> OnLiveBroker(a, ps[i]) {
      SamePlaceLive(a, ps, b, qs, i);
    }
    KeyKeepsIndex(a, ps, b, qs, key);
    var i := ChosenIndex(a, ps, key);
    assert InfoSeq(a, ps)[i] == InfoSeq(b, qs)[i];
  }

  lemma SameInfosSamePlaces(a: seq<Broker>, ps: seq<Partition>, b: seq<Broker>, qs: seq<Partition>)
    requires BrokersInRange(ps, |a|) && BrokersInRange(qs, |b|) && InfoSeq(a, ps) == InfoSeq(b, qs)
    ensures |ps| == |qs| && Places(a, ps) == Places(b, qs)
  {
    assert |InfoSeq(a, ps)| == |ps| && |InfoSeq(b, qs)| == |qs|;
    forall i | 0 <= i < |ps| ensures Places(a, ps)[i] == Places(b, qs)[i] {
      assert InfoSeq(a, ps)[i] == InfoSeq(b, qs)[i];
    }
  }

  lemma SameLiveIds(a: seq<Broker>, b: seq<Broker>, id: int)
    requires BrokerSet(a) == BrokerSet(b)
    ensures LiveId(a, id) <==> LiveId(b, id)
  {
    assert forall x :: x in a <==> x in BrokerSet(a);
    assert forall x :: x in b <==> x in BrokerSet(b);
  }

  // ------------------------------------------------------ the documented rule for keys

  ghost function UsablePositions(t: Topic): seq<bool> {
    seq(|t.all|, i requires 0 <= i < |t.all| => t.all[i] in t.ok)
  }

  /** The partition the design comment promises: the first usable one from key mod n. */
  ghost function DocumentedPartition(t: Topic, key: int): Partition
    requires t.all != []
  {
    var start := StartIndex(key, |t.all|);
    t.all[Walk(start, ChosenSteps(UsablePositions(t), start, 0), |t.all|)]
  }

  /** The code tests the broker, not the partition.  The two rules agree on every key
      exactly when none of the topic's out-of-service partitions sits on an in-service
      broker. */
  lemma DocumentedRuleIff(md: Metadata, topic: string)
    requires Sane(md) && topic in md.topicIndex && md.topics[md.topicIndex[topic]].ok != []
    requires |md.topics[md.topicIndex[topic]].all| <= 0x1_0000_0000
    ensures
      var t := md.topics[md.topicIndex[topic]];
      && HasLive(md.brokers, t.all)
      && ((forall key :: IsInt32(key) ==> ChosenPartition(md.brokers, t.all, key) == DocumentedPartition(t, key))
          <==> (forall p :: p in t.outOfService ==> !OnLiveBroker(md.brokers, p)))
  {
    hide CoverCount, ChoicesSane;
    SaneTopicIndex(md, topic);
    UsableTopicTakesKeys(md, topic);
    var t := md.topics[md.topicIndex[topic]];
    if forall p :: p in t.outOfService ==> !OnLiveBroker(md.brokers, p) {
      OkOnLiveBrokers(md, topic);
      AllIsUnion(t, |md.brokers|);
      assert LivePositions(md.brokers, t.all) == UsablePositions(t);
    } else {
      var p :| p in t.outOfService && OnLiveBroker(md.brokers, p);
      RulesDiffer(md, t, p);
    }
  }

  lemma OkOnLiveBrokers(md: Metadata, topic: string)
    requires Sane(md) && topic in md.topicIndex
    ensures md.topicIndex[topic] < |md.topics|
    ensures forall p :: p in md.topics[md.topicIndex[topic]].ok ==> OnLiveBroker(md.brokers, p)
  {
    SaneTopicIndex(md, topic);
    forall p | p in md.topics[md.topicIndex[topic]].ok ensures OnLiveBroker(md.brokers, p) {
      assert p.brokerIndex in BrokersOf(md.topics[md.topicIndex[topic]].ok);
      assert LeadsOkPartition(md.topics, p.brokerIndex);
    }
  }

  lemma KeyStartingAt(i: nat, count: nat) returns (key: int)
    requires i < count <= 0x1_0000_0000
    ensures IsInt32(key) && StartIndex(key, count) == i
  {
    key := if i < 0x8000_0000 then i else i - 0x1_0000_0000;
    SmallMod(i, count);
  }

  lemma SmallMod(i: nat, count: nat)
    requires i < count
    ensures i % count == i
  {
  }

  /** The key that starts at an out-of-service partition of a live broker is sent there. */
  lemma RulesDiffer(md: Metadata, t: Topic, p: Partition)
    requires PartitionsSane(t, |md.brokers|) && t.ok != [] && |t.all| <= 0x1_0000_0000
    requires p in t.outOfService && OnLiveBroker(md.brokers, p) && HasLive(md.brokers, t.all)
    ensures exists key :: IsInt32(key) && ChosenPartition(md.brokers, t.all, key) == p != DocumentedPartition(t, key)
  {
    assert p in t.all;
    var i :| 0 <= i < |t.all| && t.all[i] == p;
    var key := KeyStartingAt(i, |t.all|);
    ChosenStepsStops(LivePositions(md.brokers, t.all), i, 0, 0);
    assert p.id in Ids(t.outOfService);
    assert p !in t.ok by { assert p in t.ok ==> p.id in Ids(t.ok); }
    assert t.ok[0] in t.ok && t.ok[0] in t.all;
    var j :| 0 <= j < |t.all| && t.all[j] == t.ok[0];
    var s := WalkReaches(i, j, |t.all|);
    StopsSomewhere(UsablePositions(t), i, s);
    assert DocumentedPartition(t, key) in t.ok;
  }

  /** A cluster where they disagree: one broker, leading a usable partition 1 and an
      unusable partition 0. */
  const EXAMPLE_TOPIC :=
    Topic([Partition(1, 0, 0)], [Partition(0, 0, 5)], [Partition(0, 0, 5), Partition(1, 0, 0)], map[0 := Choices(0, 1)])

  const EXAMPLE := Metadata([Broker(7, "host", 9092, true)], 1, [1], [EXAMPLE_TOPIC], map["t" := 0])

  lemma ExampleTopicSane()
    ensures TopicSane(EXAMPLE_TOPIC, 1, [1])
  {
    var t := EXAMPLE_TOPIC;
    assert BrokersOf(t.ok) == {0} && IdsOn(t.ok, 0) == {1};
    assert Elements([1]) == {1} && Chunk(t.choices[0], [1]) == [1];
    assert t.all[0] == t.outOfService[0] && t.all[1] == t.ok[0];
  }

  lemma ExampleSane()
    ensures Sane(EXAMPLE)
  {
    hide TopicSane;
    ExampleTopicSane();
    assert Coverers(EXAMPLE_TOPIC, 0) == {0} && EXAMPLE.topics[..0] == [];
    assert CoverCount(EXAMPLE.topics, 0) == 1;
    assert EXAMPLE_TOPIC.ok[0].brokerIndex in BrokersOf(EXAMPLE.topics[0].ok);
    assert InServiceIndexes(EXAMPLE.brokers) == {0};
    assert EXAMPLE.topicIndex["t"] == 0;
  }

  lemma ExampleWellFormed()
    ensures WellFormed(EXAMPLE)
  {
    hide Sane;
    ExampleSane();
    assert EXAMPLE_TOPIC.ok[0] in EXAMPLE.topics[EXAMPLE.topicIndex["t"]].ok;
    assert OkPairs(EXAMPLE.topics, EXAMPLE.topicIndex) == {("t", 1)};
  }

  /** In the example, which is as the builder makes its metadata, key 0 goes to the
      unusable partition 0. */
  lemma DocumentedRuleFails()
    ensures
      var t := EXAMPLE_TOPIC;
      && WellFormed(EXAMPLE) && HasLive(EXAMPLE.brokers, t.all)
      && ChosenPartition(EXAMPLE.brokers, t.all, 0).id == 0 && DocumentedPartition(t, 0).id == 1
  {
    hide WellFormed;
    ExampleWellFormed();
    var t := EXAMPLE_TOPIC;
    assert OnLiveBroker(EXAMPLE.brokers, t.all[0]);
    ChosenStepsStops(LivePositions(EXAMPLE.brokers, t.all), 0, 0, 0);
    assert t.all[0] !in t.ok && t.all[1] in t.ok;
    ChosenStepsStops(UsablePositions(t), 0, 0, 1);
  }
}
