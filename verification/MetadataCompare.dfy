/** operator== on metadata: deciding whether a refreshed copy says anything new. */
module MetadataCompare {
  import opened Metadata
  import opened Regrouping

  // ----------------------------------------------------- sets as large as their lists

  ghost function BrokerSet(brokers: seq<Broker>): set<Broker> {
    set b | b in brokers
  }

  ghost predicate UniqueBrokerIds(brokers: seq<Broker>) {
    forall i, j :: 0 <= i < j < |brokers| ==> brokers[i].id != brokers[j].id
  }

  lemma {:induction false} BrokerSetSize(brokers: seq<Broker>)
    requires UniqueBrokerIds(brokers)
    ensures |BrokerSet(brokers)| == |brokers|
  {
    if brokers == [] {
    } else {
      var n := |brokers| - 1;
      BrokerSetSize(brokers[..n]);
      assert brokers == brokers[..n] + [brokers[n]];
      assert BrokerSet(brokers) == BrokerSet(brokers[..n]) + {brokers[n]};
      assert brokers[n] !in brokers[..n];
    }
  }

  lemma {:induction false} InfoSetSize(brokers: seq<Broker>, ps: seq<Partition>)
    requires BrokersInRange(ps, |brokers|) && DistinctIds(ps)
    ensures |InfosOf(brokers, ps)| == |ps|
  {
    if ps == [] {
    } else {
      var n := |ps| - 1;
      InfoSetSize(brokers, ps[..n]);
      assert ps == ps[..n] + [ps[n]];
      assert InfosOf(brokers, ps) == InfosOf(brokers, ps[..n]) + {InfoOf(brokers, ps[n])};
      assert InfoOf(brokers, ps[n]) !in InfosOf(brokers, ps[..n]);
    }
  }

  // ----------------------------------------------------------------- the comparison

  method CompareBrokers(a: Metadata, b: Metadata) returns (equal: bool)
    requires UniqueBrokerIds(a.brokers) && UniqueBrokerIds(b.brokers)
    requires |a.brokers| == |b.brokers|
    ensures equal <==> BrokerSet(a.brokers) == BrokerSet(b.brokers)
  {
    BrokerSetSize(a.brokers);
    BrokerSetSize(b.brokers);
    var brokerSet := set x | x in a.brokers;
    for i := 0 to |b.brokers|
      invariant forall k :: 0 <= k < i ==> b.brokers[k] in brokerSet
    {
      if b.brokers[i] !in brokerSet {
        assert b.brokers[i] in BrokerSet(b.brokers);
        return false;
      }
    }
    assert brokerSet == BrokerSet(a.brokers);
    SubsetOfSameSize(BrokerSet(b.brokers), BrokerSet(a.brokers));
    return true;
  }

  /** One of the two halves of SingleTopicCompare: equal sizes, and every partition of
      the second list described in the first. */
  method ComparePartitions(a: Metadata, ps: seq<Partition>, b: Metadata, qs: seq<Partition>) returns (equal: bool)
    requires BrokersInRange(ps, |a.brokers|) && DistinctIds(ps)
    requires BrokersInRange(qs, |b.brokers|) && DistinctIds(qs)
    requires |ps| == |qs|
    ensures equal <==> InfosOf(a.brokers, ps) == InfosOf(b.brokers, qs)
  {
    InfoSetSize(a.brokers, ps);
    InfoSetSize(b.brokers, qs);
    var partSet := {};
    for i := 0 to |ps|
      invariant partSet == InfosOf(a.brokers, ps[..i])
    {
      assert ps[..i + 1] == ps[..i] + [ps[i]];
      partSet := partSet + {InfoOf(a.brokers, ps[i])};
    }
    assert ps[..|ps|] == ps;
    for i := 0 to |qs|
      invariant forall k :: 0 <= k < i ==> InfoOf(b.brokers, qs[k]) in partSet
    {
      if InfoOf(b.brokers, qs[i]) !in partSet {
        assert InfoOf(b.brokers, qs[i]) in InfosOf(b.brokers, qs);
        return false;
      }
    }
    SubsetOfSameSize(InfosOf(b.brokers, qs), partSet);
    return true;
  }

  method SingleTopicCompare(a: Metadata, t: Topic, b: Metadata, u: Topic) returns (equal: bool)
    requires PartitionsSane(t, |a.brokers|) && PartitionsSane(u, |b.brokers|)
    ensures equal <==> TopicViewOf(a.brokers, t) == TopicViewOf(b.brokers, u)
  {
    if |t.ok| != |u.ok| || |t.outOfService| != |u.outOfService| {
      InfoSetSize(a.brokers, t.ok);
      InfoSetSize(a.brokers, t.outOfService);
      InfoSetSize(b.brokers, u.ok);
      InfoSetSize(b.brokers, u.outOfService);
      return false;
    }
    equal := ComparePartitions(a, t.ok, b, u.ok);
    if equal {
      equal := ComparePartitions(a, t.outOfService, b, u.outOfService);
    }
  }

  lemma ViewParts(md: Metadata)
    requires Sane(md)
    ensures ViewOf(md).topics.Keys == md.topicIndex.Keys
    ensures ViewOf(md).brokers == BrokerSet(md.brokers)
  {
  }

  ghost predicate SameTopic(a: Metadata, b: Metadata, name: string)
    requires Sane(a) && Sane(b) && name in a.topicIndex
  {
    name in b.topicIndex && ViewOf(a).topics[name] == ViewOf(b).topics[name]
  }

  method CompareTopics(a: Metadata, b: Metadata) returns (equal: bool)
    requires Sane(a) && Sane(b)
    ensures equal <==> forall n :: n in a.topicIndex ==> SameTopic(a, b, n)
  {
    hide ChoicesSane, PartitionsSane, CoverCount;
    var todo := a.topicIndex.Keys;
    while todo != {}
      invariant todo <= a.topicIndex.Keys
      invariant forall n :: n in a.topicIndex && n !in todo ==> SameTopic(a, b, n)
      decreases todo
    {
      var n :| n in todo;
      assert n in a.topicIndex;
      todo := todo - {n};
      if n !in b.topicIndex {
        return false;
      }
      var same := SingleTopicCompare(a, a.topics[a.topicIndex[n]], b, b.topics[b.topicIndex[n]]);
      if !same {
        return false;
      }
    }
    return true;
  }

  /** On built metadata operator== is equality of views: the same brokers, the same topic
      names, and per topic the same usable and unusable partitions by id, Kafka broker id
      and error code. */
  method Equal(a: Metadata, b: Metadata) returns (equal: bool)
    requires WellFormed(a) && WellFormed(b)
    ensures equal <==> ViewOf(a) == ViewOf(b)
  {
    hide Sane, OkPairs;
    if |a.brokers| != |b.brokers| || |a.topicBrokerVec| != |b.topicBrokerVec| || |a.topics| != |b.topics| {
      if ViewOf(a) == ViewOf(b) { SameViewSameSizes(a, b); }
      return false;
    }
    equal := CompareBrokers(a, b);
    if equal {
      equal := CompareTopics(a, b);
    }
    ViewsDecided(a, b);
  }

  lemma ViewsDecided(a: Metadata, b: Metadata)
    requires WellFormed(a) && WellFormed(b) && |a.topics| == |b.topics|
    ensures ViewOf(a) == ViewOf(b) <==>
      && BrokerSet(a.brokers) == BrokerSet(b.brokers)
      && (forall n :: n in a.topicIndex ==> SameTopic(a, b, n))
  {
    hide Sane, OkPairs, ViewOf;
    ViewParts(a);
    ViewParts(b);
    if forall n :: n in a.topicIndex ==> SameTopic(a, b, n) {
      assert |a.topicIndex.Keys| == |a.topicIndex| && |b.topicIndex.Keys| == |b.topicIndex|;
      assert forall n :: n in a.topicIndex ==> SameTopic(a, b, n) && n in b.topicIndex;
      SubsetOfSameSize(a.topicIndex.Keys, b.topicIndex.Keys);
      assert ViewOf(a).topics == ViewOf(b).topics;
    }
  }

  /** The early exits on vector sizes never separate equal views. */
  lemma SameViewSameSizes(a: Metadata, b: Metadata)
    requires WellFormed(a) && WellFormed(b) && ViewOf(a) == ViewOf(b)
    ensures |a.brokers| == |b.brokers| && |a.topics| == |b.topics|
    ensures |a.topicBrokerVec| == |b.topicBrokerVec|
  {
    hide Sane, OkPairs, ViewOf;
    BrokerSetSize(a.brokers);
    BrokerSetSize(b.brokers);
    ViewParts(a);
    ViewParts(b);
    assert |a.topicIndex.Keys| == |a.topicIndex| && |b.topicIndex.Keys| == |b.topicIndex|;
    SameViewSamePairs(a, b);
  }

  lemma OkIdsFromView(md: Metadata, name: string)
    requires Sane(md) && name in md.topicIndex
    ensures Ids(md.topics[md.topicIndex[name]].ok) == set info | info in ViewOf(md).topics[name].ok :: info.id
  {
    var t := md.topics[md.topicIndex[name]];
    var infos := ViewOf(md).topics[name].ok;
    assert TopicSane(t, |md.brokers|, md.topicBrokerVec);
    assert infos == InfosOf(md.brokers, t.ok);
    forall p | p in t.ok ensures p.id in (set info | info in infos :: info.id) {
      assert InfoOf(md.brokers, p) in infos;
    }
  }

  lemma SameViewSamePairs(a: Metadata, b: Metadata)
    requires Sane(a) && Sane(b) && ViewOf(a).topics == ViewOf(b).topics
    ensures OkPairs(a.topics, a.topicIndex) == OkPairs(b.topics, b.topicIndex)
  {
    hide TopicSane, LeadsOkPartition, Ids;
    ViewParts(a);
    ViewParts(b);
    var pairs, pairs' := OkPairs(a.topics, a.topicIndex), OkPairs(b.topics, b.topicIndex);
    forall n, id ensures (n, id) in pairs <==> (n, id) in pairs' {
      OkPairsMember(a.topics, a.topicIndex, n, id);
      OkPairsMember(b.topics, b.topicIndex, n, id);
      if n in a.topicIndex.Keys {
        OkIdsFromView(a, n);
        OkIdsFromView(b, n);
      }
    }
    assert pairs == pairs';
  }
}
