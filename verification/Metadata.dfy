/** Kafka metadata as the router holds it: brokers, topics with their partitions,
    and one shared vector packing the usable partition ids of every
    (topic, broker) pair.  A TMetadata never changes once built, so it is a value. */
module Metadata {
  import opened Options

  datatype Broker = Broker(id: int, hostname: string, port: nat, inService: bool)

  datatype Partition = Partition(id: int, brokerIndex: nat, errorCode: int)

  /** A chunk of the shared vector. */
  datatype Choices = Choices(index: nat, count: nat)

  datatype Topic = Topic(
    ok: seq<Partition>,
    outOfService: seq<Partition>,
    all: seq<Partition>,
    choices: map<nat, Choices>)

  datatype Metadata = Metadata(
    brokers: seq<Broker>,
    inServiceCount: nat,
    topicBrokerVec: seq<int>,
    topics: seq<Topic>,
    topicIndex: map<string, nat>)

  // ---------------------------------------------------------------- one topic

  predicate Ascending(ps: seq<Partition>) {
    forall i, j :: 0 <= i < j < |ps| ==> ps[i].id < ps[j].id
  }

  predicate AscendingIds(ids: seq<int>) {
    forall i, j :: 0 <= i < j < |ids| ==> ids[i] < ids[j]
  }

  predicate DistinctIds(ps: seq<Partition>) {
    forall i, j :: 0 <= i < j < |ps| ==> ps[i].id != ps[j].id
  }

  predicate BrokersInRange(ps: seq<Partition>, brokerCount: nat) {
    forall p :: p in ps ==> p.brokerIndex < brokerCount
  }

  function Elements(ids: seq<int>): set<int> {
    set id | id in ids
  }

  function Ids(ps: seq<Partition>): set<int> {
    set p | p in ps :: p.id
  }

  function BrokersOf(ps: seq<Partition>): set<nat> {
    set p | p in ps :: p.brokerIndex
  }

  /** Ids of the partitions that sit on one broker: the plain filter that the packed
      vector must agree with. */
  function IdsOn(ps: seq<Partition>, broker: nat): set<int> {
    set p | p in ps && p.brokerIndex == broker :: p.id
  }

  predicate ChunkInRange(c: Choices, vec: seq<int>) {
    c.index < |vec| && c.count <= |vec| - c.index
  }

  function Chunk(c: Choices, vec: seq<int>): seq<int>
    requires ChunkInRange(c, vec)
  {
    vec[c.index..c.index + c.count]
  }

  predicate ChunkLists(c: Choices, vec: seq<int>, ids: set<int>) {
    && ChunkInRange(c, vec)
    && AscendingIds(Chunk(c, vec))
    && Elements(Chunk(c, vec)) == ids
  }

  predicate PartitionsSane(t: Topic, brokerCount: nat) {
    && |t.all| == |t.ok| + |t.outOfService|
    && Ascending(t.all)
    && BrokersInRange(t.ok, brokerCount) && BrokersInRange(t.outOfService, brokerCount)
    && (forall p :: p in t.ok ==> p in t.all)
    && (forall p :: p in t.outOfService ==> p in t.all)
    && DistinctIds(t.ok) && DistinctIds(t.outOfService)
    && Ids(t.ok) !! Ids(t.outOfService)
  }

  predicate ChoicesSane(t: Topic, vec: seq<int>) {
    && t.choices.Keys == BrokersOf(t.ok)
    && forall b :: b in t.choices ==> ChunkLists(t.choices[b], vec, IdsOn(t.ok, b))
  }

  predicate TopicSane(t: Topic, brokerCount: nat, vec: seq<int>) {
    PartitionsSane(t, brokerCount) && ChoicesSane(t, vec)
  }

  // --------------------------------------------------------- the shared vector

  predicate Covers(c: Choices, slot: nat) {
    c.index <= slot < c.index + c.count
  }

  function Coverers(t: Topic, slot: nat): set<nat> {
    set b | b in t.choices && Covers(t.choices[b], slot)
  }

  /** Number of (topic, broker) chunks that a slot of the shared vector belongs to. */
  function CoverCount(topics: seq<Topic>, slot: nat): nat {
    if topics == [] then 0
    else CoverCount(topics[..|topics| - 1], slot) + |Coverers(topics[|topics| - 1], slot)|
  }

  // ------------------------------------------------------------ whole metadata

  ghost predicate LeadsOkPartition(topics: seq<Topic>, broker: nat) {
    exists k :: 0 <= k < |topics| && broker in BrokersOf(topics[k].ok)
  }

  function InServiceIndexes(brokers: seq<Broker>): set<nat> {
    set i: nat | i < |brokers| && brokers[i].inService
  }

  ghost predicate IsIndexOfSome(topicIndex: map<string, nat>, k: nat) {
    exists n :: n in topicIndex && topicIndex[n] == k
  }

  /** Exactly what the metadata's own sanity check accepts. */
  ghost predicate Sane(md: Metadata) {
    && (forall n :: n in md.topicIndex ==> md.topicIndex[n] < |md.topics|)
    && (forall k: nat :: k < |md.topics| ==> IsIndexOfSome(md.topicIndex, k))
    && (forall k :: 0 <= k < |md.topics| ==>
          TopicSane(md.topics[k], |md.brokers|, md.topicBrokerVec))
    && (forall slot: nat :: slot < |md.topicBrokerVec| ==> CoverCount(md.topics, slot) == 1)
    && (forall i :: 0 <= i < |md.brokers| ==>
          (md.brokers[i].inService <==> LeadsOkPartition(md.topics, i)))
    && md.inServiceCount == |InServiceIndexes(md.brokers)|
  }

  /** What the builder delivers on top of sanity: unique broker ids, one name per
      topic, in-service brokers first, no slot of the shared vector unaccounted for. */
  ghost predicate WellFormed(md: Metadata) {
    && Sane(md)
    && (forall i, j :: 0 <= i < j < |md.brokers| ==> md.brokers[i].id != md.brokers[j].id)
    && |md.topicIndex| == |md.topics|
    && md.inServiceCount <= |md.brokers|
    && (forall i :: 0 <= i < |md.brokers| ==>
          (md.brokers[i].inService <==> i < md.inServiceCount))
    && |md.topicBrokerVec| == |OkPairs(md.topics, md.topicIndex)|
  }

  /** Every (topic name, usable partition id) pair. */
  ghost function OkPairs(topics: seq<Topic>, topicIndex: map<string, nat>): set<(string, int)> {
    set n, p | n in topicIndex && topicIndex[n] < |topics| && p in topics[topicIndex[n]].ok :: (n, p.id)
  }

  lemma OkPairsMember(topics: seq<Topic>, topicIndex: map<string, nat>, n: string, id: int)
    ensures (n, id) in OkPairs(topics, topicIndex) <==>
            n in topicIndex && topicIndex[n] < |topics| && id in Ids(topics[topicIndex[n]].ok)
  {
  }

  // -------------------------------------------------------------- logical view

  /** A partition without reference to vector positions. */
  datatype PartitionInfo = PartitionInfo(id: int, brokerId: int, errorCode: int)

  datatype TopicView = TopicView(ok: set<PartitionInfo>, outOfService: set<PartitionInfo>)

  datatype View = View(brokers: set<Broker>, topics: map<string, TopicView>)

  function InfoOf(brokers: seq<Broker>, p: Partition): PartitionInfo
    requires p.brokerIndex < |brokers|
  {
    PartitionInfo(p.id, brokers[p.brokerIndex].id, p.errorCode)
  }

  function InfosOf(brokers: seq<Broker>, ps: seq<Partition>): set<PartitionInfo>
    requires BrokersInRange(ps, |brokers|)
  {
    set p | p in ps :: InfoOf(brokers, p)
  }

  function TopicViewOf(brokers: seq<Broker>, t: Topic): TopicView
    requires BrokersInRange(t.ok, |brokers|) && BrokersInRange(t.outOfService, |brokers|)
  {
    TopicView(InfosOf(brokers, t.ok), InfosOf(brokers, t.outOfService))
  }

  /** All that the metadata says, free of vector positions, orders and shuffles. */
  ghost function ViewOf(md: Metadata): View
    requires Sane(md)
  {
    View(set b | b in md.brokers,
         map n | n in md.topicIndex ::
           TopicViewOf(md.brokers, md.topics[md.topicIndex[n]]))
  }

  // ------------------------------------------------------------------- lookups

  function FindTopicIndex(md: Metadata, topic: string): int {
    if topic !in md.topicIndex then -1
    else if md.topicIndex[topic] >= |md.topics| then -1
    else md.topicIndex[topic]
  }

  /** None stands for the null pointer. */
  function FindPartitionChoices(md: Metadata, topic: string, broker: nat): Option<seq<int>> {
    var k := FindTopicIndex(md, topic);
    if k < 0 || broker >= |md.brokers| || broker !in md.topics[k].choices then None
    else
      var c := md.topics[k].choices[broker];
      if c.index >= |md.topicBrokerVec| || c.count > |md.topicBrokerVec| - c.index || c.count == 0
      then None
      else Some(md.topicBrokerVec[c.index..c.index + c.count])
  }

  lemma SaneTopicIndex(md: Metadata, topic: string)
    requires Sane(md) && topic in md.topicIndex
    ensures FindTopicIndex(md, topic) == md.topicIndex[topic] < |md.topics|
    ensures TopicSane(md.topics[md.topicIndex[topic]], |md.brokers|, md.topicBrokerVec)
  {
  }

  /** On sane metadata the packed index agrees with a plain filter of the topic's
      usable partitions. */
  lemma FindPartitionChoicesIsFilter(md: Metadata, topic: string, broker: nat)
    requires Sane(md) && topic in md.topicIndex
    ensures FindTopicIndex(md, topic) >= 0
    ensures
      var ok := md.topics[FindTopicIndex(md, topic)].ok;
      var r := FindPartitionChoices(md, topic, broker);
      && (r.None? <==> IdsOn(ok, broker) == {})
      && (r.Some? ==> AscendingIds(r.value) && Elements(r.value) == IdsOn(ok, broker))
  {
    hide PartitionsSane, CoverCount, LeadsOkPartition, InServiceIndexes;
    SaneTopicIndex(md, topic);
    var t := md.topics[FindTopicIndex(md, topic)];
    ChunkIfAny(t, md.topicBrokerVec, broker);
    if broker in t.choices { BrokerInRange(t, broker, |md.brokers|); }
  }

  lemma ChunkIfAny(t: Topic, vec: seq<int>, broker: nat)
    requires ChoicesSane(t, vec)
    ensures broker in t.choices <==> IdsOn(t.ok, broker) != {}
    ensures broker in t.choices ==>
      ChunkLists(t.choices[broker], vec, IdsOn(t.ok, broker)) && t.choices[broker].count > 0
  {
    if broker in BrokersOf(t.ok) {
      var p :| p in t.ok && p.brokerIndex == broker;
      assert p.id in IdsOn(t.ok, broker);
      assert p.id in Elements(Chunk(t.choices[broker], vec));
    } else {
      assert forall p :: p in t.ok ==> p.brokerIndex in BrokersOf(t.ok);
    }
  }

  lemma BrokerInRange(t: Topic, broker: nat, brokerCount: nat)
    requires PartitionsSane(t, brokerCount) && broker in BrokersOf(t.ok)
    ensures broker < brokerCount
  {
  }

  lemma EmptyElements(s: seq<int>)
    ensures Elements(s) == {} <==> s == []
  {
    if s != [] { assert s[0] in Elements(s); }
  }

  /** An ascending sequence is determined by its elements, so the filter result above
      is unique. */
  lemma {:induction false} AscendingIdsUnique(s: seq<int>, r: seq<int>)
    requires AscendingIds(s) && AscendingIds(r) && Elements(s) == Elements(r)
    ensures s == r
  {
    EmptyElements(s);
    EmptyElements(r);
    if s == [] {
    } else {
      var m, n := |s| - 1, |r| - 1;
      assert s[m] in Elements(r) && r[n] in Elements(s);
      assert Elements(s[..m]) == Elements(s) - {s[m]};
      assert Elements(r[..n]) == Elements(r) - {r[n]};
      AscendingIdsUnique(s[..m], r[..n]);
      assert s == s[..m] + [s[m]] && r == r[..n] + [r[n]];
    }
  }
}
