/** Closing a topic: its usable partitions, ordered by broker and then by id, are
    appended to the shared vector as one chunk per broker. */
module Packing {
  import opened Metadata
  import opened Sorting

  predicate ByBrokerThenId(x: Partition, y: Partition) {
    x.brokerIndex < y.brokerIndex || (x.brokerIndex == y.brokerIndex && x.id < y.id)
  }

  predicate ById(x: Partition, y: Partition) {
    x.id < y.id
  }

  function IdSeq(ps: seq<Partition>): seq<int> {
    seq(|ps|, i requires 0 <= i < |ps| => ps[i].id)
  }

  /** Each chunk is exactly the run of its broker's partitions in ps, where ps[j]
      lies in slot base + j. */
  predicate ChunksAreRuns(ps: seq<Partition>, base: nat, choices: map<nat, Choices>) {
    && (forall b :: b in choices ==>
          base <= choices[b].index && 0 < choices[b].count && choices[b].index + choices[b].count <= base + |ps|)
    && (forall j :: 0 <= j < |ps| ==> ps[j].brokerIndex in choices)
    && (forall b, j :: b in choices && 0 <= j < |ps| ==>
          (ps[j].brokerIndex == b <==> Covers(choices[b], base + j)))
  }

  function MarkedInService(brokers: seq<Broker>, which: set<nat>): seq<Broker> {
    seq(|brokers|, i requires 0 <= i < |brokers| =>
      brokers[i].(inService := brokers[i].inService || i in which))
  }

  /** First position at or after start whose partition is on another broker. */
  method RunEnd(ps: seq<Partition>, start: nat) returns (end: nat)
    requires start <= |ps|
    ensures start <= end <= |ps|
    ensures forall k :: start <= k < end ==> ps[k].brokerIndex == ps[start].brokerIndex
    ensures start < |ps| ==> start < end
    ensures start < end < |ps| ==> ps[end].brokerIndex != ps[start].brokerIndex
  {
    end := start;
    while end < |ps| && ps[end].brokerIndex == ps[start].brokerIndex
      invariant start <= end <= |ps|
      invariant forall k :: start <= k < end ==> ps[k].brokerIndex == ps[start].brokerIndex
    {
      end := end + 1;
    }
  }

  method AppendIds(ps: seq<Partition>, start: nat, end: nat, vec: seq<int>) returns (vec': seq<int>)
    requires start < end <= |ps|
    ensures vec' == vec + IdSeq(ps[start..end])
  {
    vec' := vec;
    var iter := start;
    while true
      invariant start <= iter < end
      invariant vec' == vec + IdSeq(ps[start..iter])
      decreases end - iter
    {
      vec' := vec' + [ps[iter].id];
      iter := iter + 1;
      if iter == end {
        break;
      }
    }
  }

  datatype Packed = Packed(brokers: seq<Broker>, vec: seq<int>, choices: map<nat, Choices>)

  /** What the loop has produced from the first k partitions. */
  ghost predicate PackedFrom(ps: seq<Partition>, k: nat, start: Packed, now: Packed)
    requires k <= |ps|
  {
    && (forall i, j :: 0 <= i < k <= j < |ps| ==> ps[i].brokerIndex < ps[j].brokerIndex)
    && now.vec == start.vec + IdSeq(ps[..k])
    && ChunksAreRuns(ps[..k], |start.vec|, now.choices)
    && now.brokers == MarkedInService(start.brokers, BrokersOf(ps[..k]))
  }

  /** The loop of CloseTopic over two iterators. */
  method Pack(ps: seq<Partition>, start: Packed) returns (now: Packed)
    requires Ordered(ByBrokerThenId, ps)
    requires BrokersInRange(ps, |start.brokers|) && start.choices == map[]
    ensures PackedFrom(ps, |ps|, start, now)
  {
    now := start;
    var iter1, iter2 := 0, 0;
    assert IdSeq(ps[..0]) == [];
    while true
      invariant 0 <= iter1 == iter2 <= |ps|
      invariant PackedFrom(ps, iter1, start, now)
      decreases |ps| - iter1
    {
      iter2 := RunEnd(ps, iter1);
      if iter2 == iter1 {
        break;
      }
      ghost var before := now;
      var broker := ps[iter1].brokerIndex;
      var vec := AppendIds(ps, iter1, iter2, now.vec);
      now := Packed(
        now.brokers[broker := now.brokers[broker].(inService := true)],
        vec,
        now.choices[broker := Choices(|now.vec|, iter2 - iter1)]);
      PackedRun(ps, iter1, iter2, start, before);
      iter1 := iter2;
    }
  }

  lemma PackedRun(ps: seq<Partition>, i: nat, j: nat, start: Packed, now: Packed)
    requires Ordered(ByBrokerThenId, ps) && BrokersInRange(ps, |start.brokers|)
    requires i < j <= |ps| && PackedFrom(ps, i, start, now)
    requires forall k :: i <= k < j ==> ps[k].brokerIndex == ps[i].brokerIndex
    requires j < |ps| ==> ps[j].brokerIndex != ps[i].brokerIndex
    ensures
      var b := ps[i].brokerIndex;
      PackedFrom(ps, j, start, Packed(
        now.brokers[b := now.brokers[b].(inService := true)],
        now.vec + IdSeq(ps[i..j]),
        now.choices[b := Choices(|now.vec|, j - i)]))
  {
    RunExtendsChunks(ps, |start.vec|, now.choices, i, j);
    MarkMore(start.brokers, ps, i, j);
    OrderBetweenRuns(ps, i, j);
    assert IdSeq(ps[..i]) + IdSeq(ps[i..j]) == IdSeq(ps[..j]);
  }

  lemma OrderBetweenRuns(ps: seq<Partition>, i: nat, j: nat)
    requires Ordered(ByBrokerThenId, ps)
    requires i < j <= |ps|
    requires forall m, n :: 0 <= m < i <= n < |ps| ==> ps[m].brokerIndex < ps[n].brokerIndex
    requires forall k :: i <= k < j ==> ps[k].brokerIndex == ps[i].brokerIndex
    requires j < |ps| ==> ps[j].brokerIndex != ps[i].brokerIndex
    ensures forall m, n :: 0 <= m < j <= n < |ps| ==> ps[m].brokerIndex < ps[n].brokerIndex
  {
  }

  lemma RunExtendsChunks(ps: seq<Partition>, base: nat, choices: map<nat, Choices>, i: nat, j: nat)
    requires i < j <= |ps|
    requires ChunksAreRuns(ps[..i], base, choices)
    requires forall k :: 0 <= k < i ==> ps[k].brokerIndex < ps[i].brokerIndex
    requires forall k :: i <= k < j ==> ps[k].brokerIndex == ps[i].brokerIndex
    ensures ps[i].brokerIndex !in choices
    ensures ChunksAreRuns(ps[..j], base, choices[ps[i].brokerIndex := Choices(base + i, j - i)])
  {
    assert forall b :: b in choices ==> ps[..i][choices[b].index - base].brokerIndex == b;
    var choices' := choices[ps[i].brokerIndex := Choices(base + i, j - i)];
    forall b, k | b in choices' && 0 <= k < j
      ensures ps[k].brokerIndex == b <==> Covers(choices'[b], base + k)
    {
      assert k < i ==> ps[..i][k] == ps[k];
    }
  }

  lemma MarkMore(brokers: seq<Broker>, ps: seq<Partition>, i: nat, j: nat)
    requires i < j <= |ps| && BrokersInRange(ps, |brokers|)
    requires forall k :: i <= k < j ==> ps[k].brokerIndex == ps[i].brokerIndex
    ensures
      var b := ps[i].brokerIndex;
      var marked := MarkedInService(brokers, BrokersOf(ps[..i]));
      MarkedInService(brokers, BrokersOf(ps[..j])) == marked[b := marked[b].(inService := true)]
  {
  }

  // ------------------------------------------------- what a packed topic satisfies

  /** One chunk, read back from the vector, is its broker's ids in ascending order. */
  lemma ChunkOfRun(ps: seq<Partition>, vec: seq<int>, choices: map<nat, Choices>, b: nat)
    requires Ordered(ByBrokerThenId, ps) && DistinctIds(ps)
    requires ChunksAreRuns(ps, |vec|, choices) && b in choices
    ensures ChunkLists(choices[b], vec + IdSeq(ps), IdsOn(ps, b))
  {
    var c := choices[b];
    var start := c.index - |vec|;
    var chunk := Chunk(c, vec + IdSeq(ps));
    assert forall j :: 0 <= j < c.count ==> chunk[j] == ps[start + j].id && ps[start + j].brokerIndex == b;
    forall i, j | 0 <= i < j < |chunk| ensures chunk[i] < chunk[j] {
      assert !ByBrokerThenId(ps[start + j], ps[start + i]);
    }
    forall p | p in ps && p.brokerIndex == b ensures p.id in chunk {
      var j :| 0 <= j < |ps| && ps[j] == p;
      assert Covers(c, |vec| + j);
      assert chunk[j - start] == p.id;
    }
  }

  /** A topic closed with these partitions, in whatever order its list ends up, is
      correctly indexed, and its chunks tile exactly the slots it added. */
  lemma PackedTopic(ps: seq<Partition>, vec: seq<int>, t: Topic)
    requires Ordered(ByBrokerThenId, ps) && DistinctIds(ps)
    requires ChunksAreRuns(ps, |vec|, t.choices)
    requires multiset(t.ok) == multiset(ps)
    ensures ChoicesSane(t, vec + IdSeq(ps))
    ensures forall slot: nat :: slot < |vec| ==> Coverers(t, slot) == {}
    ensures forall slot: nat :: |vec| <= slot < |vec| + |ps| ==> |Coverers(t, slot)| == 1
  {
    SameElements(t.ok, ps);
    assert BrokersOf(t.ok) == BrokersOf(ps);
    forall b | b in t.choices
      ensures b in BrokersOf(ps) && ChunkLists(t.choices[b], vec + IdSeq(ps), IdsOn(t.ok, b))
    {
      ChunkOfRun(ps, vec, t.choices, b);
      assert IdsOn(t.ok, b) == IdsOn(ps, b);
      assert ps[t.choices[b].index - |vec|].brokerIndex == b;
    }
    forall slot: nat | |vec| <= slot < |vec| + |ps| ensures |Coverers(t, slot)| == 1 {
      assert Coverers(t, slot) == {ps[slot - |vec|].brokerIndex};
    }
  }

  lemma MergedPartitions(t: Topic, ok: seq<Partition>, brokerCount: nat)
    requires DistinctIds(ok + t.outOfService)
    requires BrokersInRange(ok, brokerCount) && BrokersInRange(t.outOfService, brokerCount)
    requires multiset(t.ok) == multiset(ok)
    requires Ordered(ById, t.all) && multiset(t.all) == multiset(ok + t.outOfService)
    ensures PartitionsSane(t, brokerCount)
  {
    SameElements(t.ok, ok);
    SameElements(t.all, ok + t.outOfService);
    DistinctSurvivesPermutation(ok + t.outOfService, t.all);
    DistinctSurvivesPermutation(ok, t.ok) by {
      assert forall i :: 0 <= i < |ok| ==> (ok + t.outOfService)[i] == ok[i];
    }
    forall i, j | 0 <= i < j < |t.all| ensures t.all[i].id < t.all[j].id {
      assert !ById(t.all[j], t.all[i]);
    }
    assert DistinctIds(t.outOfService) by {
      assert forall i :: 0 <= i < |t.outOfService| ==> (ok + t.outOfService)[|ok| + i] == t.outOfService[i];
    }
    assert Ids(t.ok) !! Ids(t.outOfService) by {
      forall p, q | p in t.ok && q in t.outOfService ensures p.id != q.id {
        var i :| 0 <= i < |ok| && ok[i] == p;
        var j :| 0 <= j < |t.outOfService| && t.outOfService[j] == q;
        assert (ok + t.outOfService)[i] == p && (ok + t.outOfService)[|ok| + j] == q;
      }
    }
  }

  lemma DistinctSurvivesPermutation(s: seq<Partition>, r: seq<Partition>)
    requires DistinctIds(s) && multiset(s) == multiset(r)
    ensures DistinctIds(r)
  {
    SameElements(s, r);
    NoDuplicatesPermuted(s, r);
    forall i, j | 0 <= i < j < |r| ensures r[i].id != r[j].id {
      assert r[i] in s && r[j] in s;
    }
  }

  // ------------------------------------------------------- all topics closed so far

  /** What holds of the closed topics at every point of a build. */
  ghost predicate Consistent(brokers: seq<Broker>, vec: seq<int>, topics: seq<Topic>, topicIndex: map<string, nat>) {
    && (forall k :: 0 <= k < |topics| ==> TopicSane(topics[k], |brokers|, vec))
    && (forall slot: nat :: slot < |vec| ==> CoverCount(topics, slot) == 1)
    && (forall i :: 0 <= i < |brokers| ==> (brokers[i].inService <==> LeadsOkPartition(topics, i)))
    && |vec| == |OkPairs(topics, topicIndex)|
  }

  lemma ChoicesSurviveAppend(t: Topic, vec: seq<int>, more: seq<int>)
    requires ChoicesSane(t, vec)
    ensures ChoicesSane(t, vec + more)
  {
    forall b | b in t.choices ensures ChunkLists(t.choices[b], vec + more, IdsOn(t.ok, b)) {
      assert Chunk(t.choices[b], vec + more) == Chunk(t.choices[b], vec);
    }
  }

  lemma {:induction false} NoCoverBeyond(topics: seq<Topic>, vec: seq<int>, slot: nat)
    requires forall k :: 0 <= k < |topics| ==> ChoicesSane(topics[k], vec)
    requires |vec| <= slot
    ensures CoverCount(topics, slot) == 0
  {
    if topics == [] {
    } else {
      var t := topics[|topics| - 1];
      NoCoverBeyond(topics[..|topics| - 1], vec, slot);
      assert forall b :: b in t.choices ==> ChunkInRange(t.choices[b], vec);
      assert Coverers(t, slot) == {};
    }
  }

  lemma OkPairsGrow(topics: seq<Topic>, t: Topic, topicIndex: map<string, nat>, name: string)
    requires name in topicIndex && topicIndex[name] == |topics|
    requires forall n :: n in topicIndex && topicIndex[n] == |topics| ==> n == name
    requires DistinctIds(t.ok)
    ensures |OkPairs(topics + [t], topicIndex)| == |OkPairs(topics, topicIndex)| + |t.ok|
  {
    var added := set p | p in t.ok :: (name, p.id);
    assert OkPairs(topics + [t], topicIndex) == OkPairs(topics, topicIndex) + added;
    assert OkPairs(topics, topicIndex) !! added;
    PairCount(name, t.ok);
  }

  lemma {:induction false} PairCount(name: string, ps: seq<Partition>)
    requires DistinctIds(ps)
    ensures |set p | p in ps :: (name, p.id)| == |ps|
  {
    if ps == [] {
    } else {
      var n := |ps| - 1;
      PairCount(name, ps[..n]);
      var before := set p | p in ps[..n] :: (name, p.id);
      assert ps == ps[..n] + [ps[n]];
      assert (set p | p in ps :: (name, p.id)) == before + {(name, ps[n].id)};
      assert (name, ps[n].id) !in before;
    }
  }

  /** Closing a topic keeps the build consistent. */
  lemma CloseKeepsConsistent(brokers: seq<Broker>, vec: seq<int>, topics: seq<Topic>,
                             topicIndex: map<string, nat>, name: string, t: Topic, ps: seq<Partition>)
    requires Consistent(brokers, vec, topics, topicIndex)
    requires name in topicIndex && topicIndex[name] == |topics|
    requires forall n :: n in topicIndex && topicIndex[n] == |topics| ==> n == name
    requires PartitionsSane(t, |brokers|)
    requires Ordered(ByBrokerThenId, ps) && multiset(t.ok) == multiset(ps)
    requires ChunksAreRuns(ps, |vec|, t.choices)
    ensures Consistent(MarkedInService(brokers, BrokersOf(ps)), vec + IdSeq(ps), topics + [t], topicIndex)
  {
    DistinctSurvivesPermutation(t.ok, ps);
    SameElements(t.ok, ps);
    PackedTopic(ps, vec, t);
    var topics', vec' := topics + [t], vec + IdSeq(ps);
    forall k | 0 <= k < |topics'| ensures TopicSane(topics'[k], |brokers|, vec') {
      if k < |topics| { ChoicesSurviveAppend(topics[k], vec, IdSeq(ps)); }
    }
    forall slot: nat | slot < |vec'| ensures CoverCount(topics', slot) == 1 {
      assert topics'[..|topics|] == topics;
      if |vec| <= slot { NoCoverBeyond(topics, vec, slot); }
    }
    OkPairsGrow(topics, t, topicIndex, name);
    assert BrokersOf(t.ok) == BrokersOf(ps);
    forall i | 0 <= i < |brokers|
      ensures (brokers[i].inService || i in BrokersOf(ps)) <==> LeadsOkPartition(topics', i)
    {
      LeadsGrow(topics, t, i);
    }
  }

  lemma LeadsGrow(topics: seq<Topic>, t: Topic, i: nat)
    ensures LeadsOkPartition(topics + [t], i) <==> LeadsOkPartition(topics, i) || i in BrokersOf(t.ok)
  {
    var topics' := topics + [t];
    if LeadsOkPartition(topics, i) {
      var k :| 0 <= k < |topics| && i in BrokersOf(topics[k].ok);
      assert topics'[k] == topics[k];
    }
    if i in BrokersOf(t.ok) {
      assert topics'[|topics|] == t;
    }
  }
}
