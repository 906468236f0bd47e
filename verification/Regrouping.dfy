/** The last step of a build: brokers are permuted so that those in service come
    first, and every broker index held by a topic is rewritten to match. */
module Regrouping {
  import opened Metadata
  import opened Packing
  import opened Sorting

  /** order[i] is the old index of new broker i; inverse[j] the new index of old
      broker j. */
  ghost predicate Inverses(order: seq<nat>, inverse: seq<nat>) {
    && |order| == |inverse|
    && (forall i :: 0 <= i < |order| ==> order[i] < |order| && inverse[order[i]] == i)
    && (forall j :: 0 <= j < |order| ==> inverse[j] < |order| && order[inverse[j]] == j)
  }

  ghost function Reordered(brokers: seq<Broker>, order: seq<nat>): seq<Broker>
    requires |order| == |brokers| && forall i :: 0 <= i < |order| ==> order[i] < |brokers|
  {
    seq(|order|, i requires 0 <= i < |order| => brokers[order[i]])
  }

  ghost function Remapped(ps: seq<Partition>, inverse: seq<nat>): seq<Partition>
    requires BrokersInRange(ps, |inverse|)
  {
    seq(|ps|, i requires 0 <= i < |ps| => ps[i].(brokerIndex := inverse[ps[i].brokerIndex]))
  }

  ghost function RemappedChoices(choices: map<nat, Choices>, order: seq<nat>): map<nat, Choices> {
    map b: nat | b < |order| && order[b] in choices :: choices[order[b]]
  }

  ghost predicate Remappable(t: Topic, brokerCount: nat) {
    BrokersInRange(t.ok, brokerCount) && BrokersInRange(t.outOfService, brokerCount) &&
      BrokersInRange(t.all, brokerCount)
  }

  ghost function RemappedTopic(t: Topic, order: seq<nat>, inverse: seq<nat>): Topic
    requires Remappable(t, |inverse|)
  {
    Topic(Remapped(t.ok, inverse), Remapped(t.outOfService, inverse), Remapped(t.all, inverse),
          RemappedChoices(t.choices, order))
  }

  // ------------------------------------------------------------- one topic remapped

  lemma {:induction false} IdCount(ps: seq<Partition>)
    requires DistinctIds(ps)
    ensures |Ids(ps)| == |ps|
  {
    if ps == [] {
    } else {
      var n := |ps| - 1;
      IdCount(ps[..n]);
      assert ps == ps[..n] + [ps[n]];
      assert Ids(ps) == Ids(ps[..n]) + {ps[n].id};
      assert ps[n].id !in Ids(ps[..n]);
    }
  }

  /** The checked inclusions and sizes already force AllPartitions to be the union. */
  lemma AllIsUnion(t: Topic, brokerCount: nat)
    requires PartitionsSane(t, brokerCount)
    ensures forall p :: p in t.all <==> p in t.ok || p in t.outOfService
    ensures Remappable(t, brokerCount)
  {
    var union := Ids(t.ok) + Ids(t.outOfService);
    assert union == Ids(t.all) by {
      IdCount(t.ok);
      IdCount(t.outOfService);
      IdCount(t.all);
      SubsetOfSameSize(union, Ids(t.all));
    }
    forall p | p in t.all ensures p in t.ok || p in t.outOfService {
      assert p.id in union;
      var q :| (q in t.ok || q in t.outOfService) && q.id == p.id;
      assert q in t.all;
    }
  }

  lemma SubsetOfSameSize<T>(a: set<T>, b: set<T>)
    requires a <= b && |a| == |b|
    ensures a == b
  {
    assert b == a + (b - a);
  }

  lemma RemappedMember(ps: seq<Partition>, order: seq<nat>, inverse: seq<nat>, p: Partition)
    requires Inverses(order, inverse) && BrokersInRange(ps, |order|)
    ensures p in Remapped(ps, inverse) <==>
            p.brokerIndex < |order| && p.(brokerIndex := order[p.brokerIndex]) in ps
  {
    var r := Remapped(ps, inverse);
    if p in r {
      var i :| 0 <= i < |r| && r[i] == p;
      assert p.(brokerIndex := order[p.brokerIndex]) == ps[i];
    }
    if p.brokerIndex < |order| && p.(brokerIndex := order[p.brokerIndex]) in ps {
      var i :| 0 <= i < |ps| && ps[i] == p.(brokerIndex := order[p.brokerIndex]);
      assert r[i] == p;
    }
  }

  lemma RemappedIds(ps: seq<Partition>, order: seq<nat>, inverse: seq<nat>)
    requires Inverses(order, inverse) && BrokersInRange(ps, |order|)
    ensures Ids(Remapped(ps, inverse)) == Ids(ps)
    ensures BrokersInRange(Remapped(ps, inverse), |order|)
  {
    var r := Remapped(ps, inverse);
    assert forall i :: 0 <= i < |ps| ==> r[i].id == ps[i].id && r[i] in r && ps[i] in ps;
  }

  lemma RemappedBrokers(ps: seq<Partition>, order: seq<nat>, inverse: seq<nat>, b: nat)
    requires Inverses(order, inverse) && BrokersInRange(ps, |order|)
    ensures b in BrokersOf(Remapped(ps, inverse)) <==> b < |order| && order[b] in BrokersOf(ps)
    ensures b < |order| ==> IdsOn(Remapped(ps, inverse), b) == IdsOn(ps, order[b])
  {
    var r := Remapped(ps, inverse);
    forall i | 0 <= i < |ps| && ps[i].brokerIndex < |order| ensures r[i] in r && ps[i] in ps {
    }
    if b < |order| {
      forall p | p in ps && p.brokerIndex == order[b] ensures p.(brokerIndex := b) in r {
        RemappedMember(ps, order, inverse, p.(brokerIndex := b));
      }
      forall p | p in r && p.brokerIndex == b ensures p.(brokerIndex := order[b]) in ps {
        RemappedMember(ps, order, inverse, p);
      }
    }
  }

  lemma RemappedPartitionsSane(t: Topic, order: seq<nat>, inverse: seq<nat>)
    requires Inverses(order, inverse) && PartitionsSane(t, |order|)
    ensures Remappable(t, |order|)
    ensures PartitionsSane(RemappedTopic(t, order, inverse), |order|)
  {
    AllIsUnion(t, |order|);
    var t' := RemappedTopic(t, order, inverse);
    RemappedIds(t.ok, order, inverse);
    RemappedIds(t.outOfService, order, inverse);
    forall p | p in t'.ok || p in t'.outOfService ensures p in t'.all {
      RemappedMember(t.ok, order, inverse, p);
      RemappedMember(t.outOfService, order, inverse, p);
      RemappedMember(t.all, order, inverse, p);
    }
  }

  lemma RemappedChoicesSane(t: Topic, order: seq<nat>, inverse: seq<nat>, vec: seq<int>)
    requires Inverses(order, inverse) && Remappable(t, |order|) && ChoicesSane(t, vec)
    ensures ChoicesSane(RemappedTopic(t, order, inverse), vec)
  {
    hide ChunkLists, BrokersOf, IdsOn;
    var t' := RemappedTopic(t, order, inverse);
    forall b: nat ensures b in t'.choices <==> b in BrokersOf(t'.ok) {
      RemappedBrokers(t.ok, order, inverse, b);
    }
    forall b | b in t'.choices ensures ChunkLists(t'.choices[b], vec, IdsOn(t'.ok, b)) {
      RemappedBrokers(t.ok, order, inverse, b);
    }
  }

  lemma RemappedTopicSane(t: Topic, order: seq<nat>, inverse: seq<nat>, vec: seq<int>)
    requires Inverses(order, inverse) && TopicSane(t, |order|, vec)
    ensures Remappable(t, |order|)
    ensures TopicSane(RemappedTopic(t, order, inverse), |order|, vec)
  {
    hide PartitionsSane, ChoicesSane;
    RemappedPartitionsSane(t, order, inverse);
    RemappedChoicesSane(t, order, inverse, vec);
  }

  lemma {:induction false} RemappedSetSize(s: set<nat>, order: seq<nat>, inverse: seq<nat>)
    requires Inverses(order, inverse) && forall b :: b in s ==> b < |order|
    ensures |set b: nat | b < |order| && order[b] in s| == |s|
    decreases |s|
  {
    var moved := set b: nat | b < |order| && order[b] in s;
    if s == {} {
      assert moved == {};
    } else {
      var x :| x in s;
      RemappedSetSize(s - {x}, order, inverse);
      assert moved == (set b: nat | b < |order| && order[b] in s - {x}) + {inverse[x]};
    }
  }

  lemma RemappedCoverers(t: Topic, order: seq<nat>, inverse: seq<nat>, slot: nat)
    requires Inverses(order, inverse) && Remappable(t, |order|) && t.choices.Keys == BrokersOf(t.ok)
    ensures |Coverers(RemappedTopic(t, order, inverse), slot)| == |Coverers(t, slot)|
  {
    var s := Coverers(t, slot);
    RemappedSetSize(s, order, inverse);
    assert Coverers(RemappedTopic(t, order, inverse), slot) == set b: nat | b < |order| && order[b] in s;
  }

  // ------------------------------------------------------------- all topics remapped

  ghost function RemappedTopics(topics: seq<Topic>, order: seq<nat>, inverse: seq<nat>): seq<Topic>
    requires forall k :: 0 <= k < |topics| ==> Remappable(topics[k], |inverse|)
  {
    seq(|topics|, k requires 0 <= k < |topics| => RemappedTopic(topics[k], order, inverse))
  }

  lemma {:induction false} RemappedCoverCount(topics: seq<Topic>, order: seq<nat>, inverse: seq<nat>, slot: nat)
    requires Inverses(order, inverse)
    requires forall k :: 0 <= k < |topics| ==>
      Remappable(topics[k], |order|) && topics[k].choices.Keys == BrokersOf(topics[k].ok)
    ensures CoverCount(RemappedTopics(topics, order, inverse), slot) == CoverCount(topics, slot)
  {
    if topics == [] {
    } else {
      var n := |topics| - 1;
      RemappedCoverCount(topics[..n], order, inverse, slot);
      RemappedCoverers(topics[n], order, inverse, slot);
      assert RemappedTopics(topics, order, inverse)[..n] == RemappedTopics(topics[..n], order, inverse);
    }
  }

  lemma RemappedPairs(topics: seq<Topic>, topicIndex: map<string, nat>, order: seq<nat>, inverse: seq<nat>)
    requires Inverses(order, inverse)
    requires forall k :: 0 <= k < |topics| ==> Remappable(topics[k], |order|)
    ensures OkPairs(RemappedTopics(topics, order, inverse), topicIndex) == OkPairs(topics, topicIndex)
  {
    var topics' := RemappedTopics(topics, order, inverse);
    var pairs, pairs' := OkPairs(topics, topicIndex), OkPairs(topics', topicIndex);
    forall n, id ensures (n, id) in pairs <==> (n, id) in pairs' {
      OkPairsMember(topics, topicIndex, n, id);
      OkPairsMember(topics', topicIndex, n, id);
      if n in topicIndex && topicIndex[n] < |topics| {
        RemappedIds(topics[topicIndex[n]].ok, order, inverse);
      }
    }
    assert pairs == pairs';
  }

  /** Consistency does not depend on the order of the brokers. */
  lemma RegroupKeepsConsistent(brokers: seq<Broker>, vec: seq<int>, topics: seq<Topic>,
                               topicIndex: map<string, nat>, order: seq<nat>, inverse: seq<nat>)
    requires Consistent(brokers, vec, topics, topicIndex)
    requires Inverses(order, inverse) && |order| == |brokers|
    ensures forall k :: 0 <= k < |topics| ==> Remappable(topics[k], |order|)
    ensures Consistent(Reordered(brokers, order), vec, RemappedTopics(topics, order, inverse), topicIndex)
  {
    forall k | 0 <= k < |topics|
      ensures Remappable(topics[k], |order|)
      ensures TopicSane(RemappedTopic(topics[k], order, inverse), |order|, vec)
    {
      RemappedTopicSane(topics[k], order, inverse, vec);
    }
    var topics' := RemappedTopics(topics, order, inverse);
    forall slot: nat | slot < |vec| ensures CoverCount(topics', slot) == 1 {
      RemappedCoverCount(topics, order, inverse, slot);
    }
    RemappedPairs(topics, topicIndex, order, inverse);
    forall i | 0 <= i < |order| ensures LeadsOkPartition(topics', i) <==> LeadsOkPartition(topics, order[i]) {
      forall k | 0 <= k < |topics| ensures i in BrokersOf(topics'[k].ok) <==> order[i] in BrokersOf(topics[k].ok) {
        RemappedBrokers(topics[k].ok, order, inverse, i);
      }
    }
  }

  /** Rewriting the indexes leaves every partition on the broker it was on. */
  lemma RemappedInfos(brokers: seq<Broker>, ps: seq<Partition>, order: seq<nat>, inverse: seq<nat>)
    requires Inverses(order, inverse) && |order| == |brokers| && BrokersInRange(ps, |brokers|)
    ensures BrokersInRange(Remapped(ps, inverse), |brokers|)
    ensures forall i :: 0 <= i < |ps| ==>
      InfoOf(Reordered(brokers, order), Remapped(ps, inverse)[i]) == InfoOf(brokers, ps[i])
    ensures InfosOf(Reordered(brokers, order), Remapped(ps, inverse)) == InfosOf(brokers, ps)
  {
  }

  // ------------------------------------------------------------------ the algorithm

  /** Fills the vector that maps old broker indexes to new ones. */
  method InvertOrder(order: seq<nat>) returns (inverse: seq<nat>)
    requires multiset(order) == multiset(Iota(|order|))
    ensures Inverses(order, inverse)
  {
    PermutationOfIota(order, |order|);
    assert forall i :: 0 <= i < |order| ==> order[i] in order;
    var toNew := new nat[|order|](_ => 0);
    for i := 0 to |order|
      invariant forall k :: 0 <= k < i ==> toNew[order[k]] == k
    {
      toNew[order[i]] := i;
    }
    inverse := toNew[..];
    forall j | 0 <= j < |order| ensures inverse[j] < |order| && order[inverse[j]] == j {
      assert j in order;
      var k :| 0 <= k < |order| && order[k] == j;
      assert inverse[order[k]] == k;
    }
  }

  method RemapPartitions(ps: seq<Partition>, inverse: seq<nat>) returns (r: seq<Partition>)
    requires BrokersInRange(ps, |inverse|)
    ensures r == Remapped(ps, inverse)
  {
    r := ps;
    for i := 0 to |ps|
      invariant |r| == |ps|
      invariant forall k :: 0 <= k < i ==> r[k] == ps[k].(brokerIndex := inverse[ps[k].brokerIndex])
      invariant forall k :: i <= k < |ps| ==> r[k] == ps[k]
    {
      r := r[i := r[i].(brokerIndex := inverse[r[i].brokerIndex])];
    }
  }

  method RemapChoices(choices: map<nat, Choices>, order: seq<nat>, inverse: seq<nat>) returns (r: map<nat, Choices>)
    requires Inverses(order, inverse) && forall b :: b in choices ==> b < |order|
    ensures r == RemappedChoices(choices, order)
  {
    r := map[];
    var todo := choices.Keys;
    while todo != {}
      invariant todo <= choices.Keys
      invariant forall b: nat :: b in r <==> b < |order| && order[b] in choices.Keys - todo
      invariant forall b :: b in r ==> r[b] == choices[order[b]]
      decreases todo
    {
      var b :| b in todo;
      r := r[inverse[b] := choices[b]];
      todo := todo - {b};
    }
  }

  method RemapTopics(topics: seq<Topic>, order: seq<nat>, inverse: seq<nat>) returns (r: seq<Topic>)
    requires Inverses(order, inverse)
    requires forall k :: 0 <= k < |topics| ==>
      Remappable(topics[k], |order|) && topics[k].choices.Keys == BrokersOf(topics[k].ok)
    ensures r == RemappedTopics(topics, order, inverse)
  {
    r := topics;
    for k := 0 to |topics|
      invariant |r| == |topics|
      invariant forall i :: 0 <= i < k ==> r[i] == RemappedTopic(topics[i], order, inverse)
      invariant forall i :: k <= i < |topics| ==> r[i] == topics[i]
    {
      var ok := RemapPartitions(r[k].ok, inverse);
      var outOfService := RemapPartitions(r[k].outOfService, inverse);
      var all := RemapPartitions(r[k].all, inverse);
      var choices := RemapChoices(r[k].choices, order, inverse);
      r := r[k := Topic(ok, outOfService, all, choices)];
    }
  }

  function Below(n: nat): (r: set<nat>)
    ensures |r| == n && forall i: nat :: i in r <==> i < n
  {
    if n == 0 then {} else Below(n - 1) + {n - 1}
  }

  /** The in-service prefix of an ordered broker vector is all of the in-service
      brokers. */
  lemma InServicePrefix(brokers: seq<Broker>, count: nat)
    requires count <= |brokers|
    requires forall i :: 0 <= i < |brokers| ==> (brokers[i].inService <==> i < count)
    ensures |InServiceIndexes(brokers)| == count
  {
    assert InServiceIndexes(brokers) == Below(count);
  }

  /** GroupInServiceBrokers, up to the rewriting of the topics. */
  method GroupBrokers(brokers: seq<Broker>)
    returns (order: seq<nat>, inverse: seq<nat>, brokers': seq<Broker>, inServiceCount: nat)
    ensures |order| == |brokers| && Inverses(order, inverse)
    ensures brokers' == Reordered(brokers, order)
    ensures inServiceCount <= |brokers'|
    ensures forall i :: 0 <= i < |brokers'| ==> (brokers'[i].inService <==> i < inServiceCount)
  {
    var n := |brokers|;
    var up := (i: nat) => i < n && brokers[i].inService;
    var before := (x: nat, y: nat) => up(x) && !up(y);
    order := Sort(Iota(n), before);
    PermutationOfIota(order, n);
    assert forall i :: 0 <= i < n ==> order[i] in order;
    brokers' := [];
    for i := 0 to n
      invariant |brokers'| == i
      invariant forall k :: 0 <= k < i ==> brokers'[k] == brokers[order[k]]
    {
      brokers' := brokers' + [brokers[order[i]]];
    }
    inServiceCount := 0;
    while inServiceCount < n && brokers'[inServiceCount].inService
      invariant inServiceCount <= n
      invariant forall i :: 0 <= i < inServiceCount ==> brokers'[i].inService
    {
      inServiceCount := inServiceCount + 1;
    }
    forall i | inServiceCount < i < n ensures !brokers'[i].inService {
      assert !before(order[i], order[inServiceCount]);
    }
    inverse := InvertOrder(order);
  }
}
