/** The metadata's own sanity check, loop by loop.  Each check is shown to decide a
    declarative property; together they decide Sane. */
module MetadataCheck {
  import opened Metadata
  import opened Regrouping

  // ------------------------------------------------------------------ partition lists

  ghost predicate Listed(ps: seq<Partition>, all: seq<Partition>, brokerCount: nat) {
    BrokersInRange(ps, brokerCount) && (forall p :: p in ps ==> p in all) && DistinctIds(ps)
  }

  method LowerBound(all: seq<Partition>, id: int) returns (k: nat)
    requires Ascending(all)
    ensures k <= |all|
    ensures forall i :: 0 <= i < k ==> all[i].id < id
    ensures forall i :: k <= i < |all| ==> id <= all[i].id
  {
    var low, high := 0, |all|;
    while low < high
      invariant 0 <= low <= high <= |all|
      invariant forall i :: 0 <= i < low ==> all[i].id < id
      invariant forall i :: high <= i < |all| ==> id <= all[i].id
    {
      var mid := (low + high) / 2;
      if all[mid].id < id { low := mid + 1; } else { high := mid; }
    }
    k := low;
  }

  /** Whether a partition is found, unchanged, by binary search in AllPartitions. */
  method FoundIn(all: seq<Partition>, p: Partition) returns (found: bool)
    requires Ascending(all)
    ensures found <==> p in all
  {
    var k := LowerBound(all, p.id);
    found := k < |all| && all[k].id == p.id && all[k].brokerIndex == p.brokerIndex && all[k].errorCode == p.errorCode;
  }

  lemma {:induction false} IdCountBound(ps: seq<Partition>)
    ensures |Ids(ps)| <= |ps|
    ensures |Ids(ps)| == |ps| <==> DistinctIds(ps)
  {
    if ps == [] {
    } else {
      var n := |ps| - 1;
      IdCountBound(ps[..n]);
      assert ps == ps[..n] + [ps[n]];
      assert Ids(ps) == Ids(ps[..n]) + {ps[n].id};
      if ps[n].id in Ids(ps[..n]) {
        assert Ids(ps) == Ids(ps[..n]);
        var q :| q in ps[..n] && q.id == ps[n].id;
      }
    }
  }

  function Grouped(ps: seq<Partition>): map<nat, set<int>> {
    map b | b in BrokersOf(ps) :: IdsOn(ps, b)
  }

  function WithId(groups: map<nat, set<int>>, p: Partition): map<nat, set<int>> {
    groups[p.brokerIndex := (if p.brokerIndex in groups then groups[p.brokerIndex] else {}) + {p.id}]
  }

  lemma GroupedNil()
    ensures Grouped([]) == map[] && BrokersOf([]) == {} && Ids([]) == {}
  {
  }

  lemma IdsOnSnoc(ps: seq<Partition>, p: Partition, b: nat)
    ensures IdsOn(ps + [p], b) == IdsOn(ps, b) + if p.brokerIndex == b then {p.id} else {}
    ensures b !in BrokersOf(ps) ==> IdsOn(ps, b) == {}
  {
  }

  lemma GroupedSnoc(ps: seq<Partition>, p: Partition)
    ensures Grouped(ps + [p]) == WithId(Grouped(ps), p)
    ensures BrokersOf(ps + [p]) == BrokersOf(ps) + {p.brokerIndex}
    ensures Ids(ps + [p]) == Ids(ps) + {p.id}
  {
    hide IdsOn;
    var expected, groups := WithId(Grouped(ps), p), Grouped(ps + [p]);
    assert BrokersOf(ps + [p]) == BrokersOf(ps) + {p.brokerIndex};
    assert expected.Keys == groups.Keys;
    forall b | b in groups ensures expected[b] == groups[b] {
      IdsOnSnoc(ps, p, b);
    }
  }

  method CheckOkPartitions(t: Topic, brokerCount: nat, inService: set<nat>)
    returns (ok: bool, inService': set<nat>, ids: set<int>, groups: map<nat, set<int>>)
    requires Ascending(t.all)
    ensures ok <==> Listed(t.ok, t.all, brokerCount)
    ensures ok ==> inService' == inService + BrokersOf(t.ok) && ids == Ids(t.ok) && groups == Grouped(t.ok)
  {
    hide Grouped, Ids, BrokersOf, DistinctIds, Ascending;
    ok, inService', ids, groups := true, inService, {}, map[];
    GroupedNil();
    for i := 0 to |t.ok|
      invariant ids == Ids(t.ok[..i]) && groups == Grouped(t.ok[..i])
      invariant inService' == inService + BrokersOf(t.ok[..i])
      invariant forall k :: 0 <= k < i ==> t.ok[k].brokerIndex < brokerCount && t.ok[k] in t.all
    {
      var p := t.ok[i];
      GroupedSnoc(t.ok[..i], p);
      assert t.ok[..i + 1] == t.ok[..i] + [p];
      ids := ids + {p.id};
      if p.brokerIndex >= brokerCount {
        ok := false;
        return;
      }
      groups := WithId(groups, p);
      inService' := inService' + {p.brokerIndex};
      var found := FoundIn(t.all, p);
      if !found {
        ok := false;
        return;
      }
    }
    assert t.ok[..|t.ok|] == t.ok;
    IdCountBound(t.ok);
    ok := |ids| == |t.ok|;
  }

  method CheckOutOfServicePartitions(t: Topic, brokerCount: nat) returns (ok: bool, ids: set<int>)
    requires Ascending(t.all)
    ensures ok <==> Listed(t.outOfService, t.all, brokerCount)
    ensures ok ==> ids == Ids(t.outOfService)
  {
    hide Grouped, Ids, BrokersOf, DistinctIds, Ascending;
    ok, ids := true, {};
    GroupedNil();
    for i := 0 to |t.outOfService|
      invariant ids == Ids(t.outOfService[..i])
      invariant forall k :: 0 <= k < i ==> t.outOfService[k].brokerIndex < brokerCount && t.outOfService[k] in t.all
    {
      var p := t.outOfService[i];
      GroupedSnoc(t.outOfService[..i], p);
      assert t.outOfService[..i + 1] == t.outOfService[..i] + [p];
      ids := ids + {p.id};
      if p.brokerIndex >= brokerCount {
        ok := false;
        return;
      }
      var found := FoundIn(t.all, p);
      if !found {
        ok := false;
        return;
      }
    }
    assert t.outOfService[..|t.outOfService|] == t.outOfService;
    IdCountBound(t.outOfService);
    ok := |ids| == |t.outOfService|;
  }

  // ----------------------------------------------------------------- the packed chunks

  ghost predicate GroupsIndexed(groups: map<nat, set<int>>, choices: map<nat, Choices>, vec: seq<int>) {
    forall b :: b in groups ==> b in choices && ChunkLists(choices[b], vec, groups[b])
  }

  function Coverage(brokers: set<nat>, choices: map<nat, Choices>, slot: nat): set<nat> {
    set b | b in brokers && b in choices && Covers(choices[b], slot)
  }

  lemma {:induction false} AdjacentAscending(ids: seq<int>)
    requires forall i :: 0 < i < |ids| ==> ids[i - 1] < ids[i]
    ensures AscendingIds(ids)
  {
    if ids == [] {
    } else {
      var n := |ids| - 1;
      AdjacentAscending(ids[..n]);
      forall i | 0 <= i < n ensures ids[i] < ids[n] {
        assert i < n - 1 ==> ids[..n][i] < ids[..n][n - 1];
      }
    }
  }

  /** Checks one chunk's order and counts one access to each of its slots. */
  method CheckChunk(c: Choices, vec: seq<int>, access: array<nat>) returns (ok: bool)
    requires ChunkInRange(c, vec) && access.Length == |vec|
    modifies access
    ensures ok <==> AscendingIds(Chunk(c, vec))
    ensures ok ==> forall slot :: 0 <= slot < access.Length ==>
      access[slot] == old(access[slot]) + if Covers(c, slot) then 1 else 0
  {
    ok := true;
    for i := 0 to c.count
      invariant forall k :: 0 < k < i ==> Chunk(c, vec)[k - 1] < Chunk(c, vec)[k]
      invariant forall slot :: 0 <= slot < access.Length ==>
        access[slot] == old(access[slot]) + if c.index <= slot < c.index + i then 1 else 0
    {
      if i > 0 && vec[c.index + i] <= vec[c.index + i - 1] {
        assert Chunk(c, vec)[i] <= Chunk(c, vec)[i - 1];
        ok := false;
        return;
      }
      access[c.index + i] := access[c.index + i] + 1;
    }
    AdjacentAscending(Chunk(c, vec));
  }

  method CheckBrokerPartitionMap(t: Topic, groups: map<nat, set<int>>, vec: seq<int>, access: array<nat>)
    returns (ok: bool)
    requires access.Length == |vec|
    modifies access
    ensures ok <==> GroupsIndexed(groups, t.choices, vec)
    ensures ok ==> forall slot: nat :: slot < access.Length ==>
      access[slot] == old(access[slot]) + |Coverage(groups.Keys, t.choices, slot)|
  {
    ok := true;
    var todo := groups.Keys;
    while todo != {}
      invariant todo <= groups.Keys
      invariant forall b :: b in groups && b !in todo ==> b in t.choices && ChunkLists(t.choices[b], vec, groups[b])
      invariant forall slot: nat :: slot < access.Length ==>
        access[slot] == old(access[slot]) + |Coverage(groups.Keys - todo, t.choices, slot)|
      decreases todo
    {
      ghost var before := todo;
      var b :| b in todo;
      todo := todo - {b};
      if b !in t.choices || !ChunkInRange(t.choices[b], vec) {
        ok := false;
        return;
      }
      var c := t.choices[b];
      if Elements(Chunk(c, vec)) != groups[b] {
        ok := false;
        return;
      }
      ok := CheckChunk(c, vec, access);
      if !ok {
        return;
      }
      forall slot: nat | slot < access.Length
        ensures |Coverage(groups.Keys - todo, t.choices, slot)| ==
                |Coverage(groups.Keys - before, t.choices, slot)| + if Covers(c, slot) then 1 else 0
      {
        assert Coverage(groups.Keys - todo, t.choices, slot) ==
               Coverage(groups.Keys - before, t.choices, slot) + if Covers(c, slot) then {b} else {};
      }
    }
    assert groups.Keys - todo == groups.Keys;
  }

  // ------------------------------------------------------------------------- one topic

  method CheckAscending(ps: seq<Partition>) returns (ok: bool)
    ensures ok <==> Ascending(ps)
  {
    var i := 1;
    while i < |ps|
      invariant 1 <= i
      invariant forall j, k :: 0 <= j < k < i && k < |ps| ==> ps[j].id < ps[k].id
    {
      if ps[i].id <= ps[i - 1].id {
        return false;
      }
      i := i + 1;
    }
    return true;
  }

  /** With the right number of chunks, having a correct chunk for every broker that
      leads a usable partition means having no others. */
  lemma ChoicesDecided(t: Topic, vec: seq<int>)
    requires |BrokersOf(t.ok)| == |t.choices|
    ensures GroupsIndexed(Grouped(t.ok), t.choices, vec) <==> ChoicesSane(t, vec)
  {
    if GroupsIndexed(Grouped(t.ok), t.choices, vec) {
      assert forall b :: b in BrokersOf(t.ok) ==> b in t.choices;
      assert |t.choices| == |t.choices.Keys|;
      SubsetOfSameSize(BrokersOf(t.ok), t.choices.Keys);
      assert forall b :: b in t.choices ==> b in Grouped(t.ok);
    }
  }

  method CheckOneTopic(t: Topic, brokerCount: nat, vec: seq<int>, inService: set<nat>, access: array<nat>)
    returns (ok: bool, inService': set<nat>)
    requires access.Length == |vec|
    modifies access
    ensures ok <==> TopicSane(t, brokerCount, vec)
    ensures ok ==> inService' == inService + BrokersOf(t.ok)
    ensures ok ==> forall slot: nat :: slot < access.Length ==>
      access[slot] == old(access[slot]) + |Coverers(t, slot)|
  {
    hide ChunkLists, Ascending, DistinctIds, BrokersInRange, GroupsIndexed;
    inService' := inService;
    if |t.all| != |t.ok| + |t.outOfService| {
      return false, inService';
    }
    ok := CheckAscending(t.all);
    if !ok {
      return;
    }
    var okIds, groups;
    ok, inService', okIds, groups := CheckOkPartitions(t, brokerCount, inService);
    if !ok {
      return;
    }
    var badIds;
    ok, badIds := CheckOutOfServicePartitions(t, brokerCount);
    if !ok {
      return;
    }
    if !(okIds !! badIds) {
      return false, inService';
    }
    assert groups.Keys == BrokersOf(t.ok);
    assert |groups| == |groups.Keys| && |t.choices| == |t.choices.Keys|;
    if |groups| != |t.choices| {
      return false, inService';
    }
    assert PartitionsSane(t, brokerCount);
    ok := CheckBrokerPartitionMap(t, groups, vec, access);
    ChoicesDecided(t, vec);
    if ok {
      forall slot: nat | slot < access.Length ensures Coverage(groups.Keys, t.choices, slot) == Coverers(t, slot) {
      }
    }
  }

  // ------------------------------------------------------------------- topics and names

  ghost predicate NamesSane(md: Metadata) {
    && (forall n :: n in md.topicIndex ==> md.topicIndex[n] < |md.topics|)
    && (forall k: nat :: k < |md.topics| ==> IsIndexOfSome(md.topicIndex, k))
  }

  method CheckNames(md: Metadata) returns (ok: bool)
    ensures ok <==> NamesSane(md)
  {
    var indexes: set<nat> := {};
    var todo := md.topicIndex.Keys;
    while todo != {}
      invariant todo <= md.topicIndex.Keys
      invariant forall k :: k in indexes <==> exists n :: n in md.topicIndex.Keys - todo && md.topicIndex[n] == k
      invariant forall k :: k in indexes ==> k < |md.topics|
      decreases todo
    {
      ghost var before := todo;
      var n :| n in todo;
      assert n in md.topicIndex;
      todo := todo - {n};
      if md.topicIndex[n] >= |md.topics| {
        return false;
      }
      indexes := indexes + {md.topicIndex[n]};
      assert md.topicIndex.Keys - todo == (md.topicIndex.Keys - before) + {n};
    }
    ok := |indexes| == |md.topics|;
    var full := Below(|md.topics|);
    assert forall k :: k in indexes <==> IsIndexOfSome(md.topicIndex, k);
    assert indexes <= full;
    assert forall n :: n in md.topicIndex ==> IsIndexOfSome(md.topicIndex, md.topicIndex[n]);
    if ok {
      SubsetOfSameSize(indexes, full);
      assert forall k: nat :: k < |md.topics| ==> k in full;
    } else {
      assert indexes != full;
      var k :| k in full && k !in indexes;
      assert !IsIndexOfSome(md.topicIndex, k);
    }
  }

  ghost function Leaders(topics: seq<Topic>): set<nat> {
    if topics == [] then {} else Leaders(topics[..|topics| - 1]) + BrokersOf(topics[|topics| - 1].ok)
  }

  lemma {:induction false} LeadersLead(topics: seq<Topic>, b: nat)
    ensures b in Leaders(topics) <==> LeadsOkPartition(topics, b)
  {
    if topics == [] {
    } else {
      var n := |topics| - 1;
      LeadersLead(topics[..n], b);
      if LeadsOkPartition(topics, b) {
        var k :| 0 <= k < |topics| && b in BrokersOf(topics[k].ok);
        assert k < n ==> topics[..n][k] == topics[k];
      }
    }
  }

  method CheckTopics(md: Metadata) returns (ok: bool, inService: set<nat>)
    ensures ok <==>
      && NamesSane(md)
      && (forall k :: 0 <= k < |md.topics| ==> TopicSane(md.topics[k], |md.brokers|, md.topicBrokerVec))
      && (forall slot: nat :: slot < |md.topicBrokerVec| ==> CoverCount(md.topics, slot) == 1)
    ensures ok ==> inService == Leaders(md.topics)
  {
    hide TopicSane, NamesSane;
    inService := {};
    ok := CheckNames(md);
    if !ok {
      return;
    }
    var vec := md.topicBrokerVec;
    var access := new nat[|vec|](_ => 0);
    for k := 0 to |md.topics|
      invariant ok && NamesSane(md)
      invariant forall i :: 0 <= i < k ==> TopicSane(md.topics[i], |md.brokers|, vec)
      invariant inService == Leaders(md.topics[..k])
      invariant forall slot: nat :: slot < |vec| ==> access[slot] == CoverCount(md.topics[..k], slot)
    {
      ok, inService := CheckOneTopic(md.topics[k], |md.brokers|, vec, inService, access);
      if !ok {
        return;
      }
      assert md.topics[..k + 1][..k] == md.topics[..k];
    }
    assert md.topics[..|md.topics|] == md.topics;
    for slot := 0 to |vec|
      invariant forall s: nat :: s < slot ==> CoverCount(md.topics, s) == 1
    {
      if access[slot] != 1 {
        ok := false;
        return;
      }
    }
  }

  // ------------------------------------------------------------------ the whole check

  /** Returns the verdict, and whether the check logs that in-service brokers are not
      grouped at the front.  The latter is logged only: it does not fail the check. */
  method DoSanityCheck(md: Metadata) returns (ok: bool, logsUngrouped: bool)
    ensures ok <==> Sane(md)
    ensures ok ==> (logsUngrouped <==>
      exists i, j :: 0 <= i < j < |md.brokers| && !md.brokers[i].inService && md.brokers[j].inService)
  {
    hide TopicSane;
    logsUngrouped := false;
    var inService;
    ok, inService := CheckTopics(md);
    if !ok {
      return;
    }
    var count, adjacent, foundOut := 0, 0, false;
    assert InServiceIndexes(md.brokers[..0]) == {};
    for i := 0 to |md.brokers|
      invariant ok
      invariant count == |InServiceIndexes(md.brokers[..i])|
      invariant foundOut <==> exists j :: 0 <= j < i && !md.brokers[j].inService
      invariant adjacent <= count
      invariant adjacent < count <==>
        exists j, k :: 0 <= j < k < i && !md.brokers[j].inService && md.brokers[k].inService
      invariant forall j :: 0 <= j < i ==> (md.brokers[j].inService <==> LeadsOkPartition(md.topics, j))
    {
      LeadersLead(md.topics, i);
      PrefixInService(md.brokers, i);
      var b := md.brokers[i];
      if b.inService {
        count := count + 1;
        if !foundOut {
          adjacent := adjacent + 1;
        }
      } else {
        foundOut := true;
      }
      if b.inService != (i in inService) {
        ok := false;
        return;
      }
    }
    assert md.brokers[..|md.brokers|] == md.brokers;
    if md.inServiceCount != count {
      ok := false;
      return;
    }
    logsUngrouped := adjacent != count;
    assert NamesSane(md);
    assert forall k :: 0 <= k < |md.topics| ==> TopicSane(md.topics[k], |md.brokers|, md.topicBrokerVec);
    assert forall slot: nat :: slot < |md.topicBrokerVec| ==> CoverCount(md.topics, slot) == 1;
    assert forall i :: 0 <= i < |md.brokers| ==> (md.brokers[i].inService <==> LeadsOkPartition(md.topics, i));
    assert md.inServiceCount == |InServiceIndexes(md.brokers)|;
  }

  lemma PrefixInService(brokers: seq<Broker>, i: nat)
    requires i < |brokers|
    ensures |InServiceIndexes(brokers[..i + 1])| ==
            |InServiceIndexes(brokers[..i])| + if brokers[i].inService then 1 else 0
  {
    assert InServiceIndexes(brokers[..i + 1]) ==
           InServiceIndexes(brokers[..i]) + if brokers[i].inService then {i} else {};
  }
}
