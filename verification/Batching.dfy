/** The per-topic batcher: a batch for each topic, under the topic's own limits. */
module Batching {
  import opened BatchLimits
  import opened Messages

  /** Key is topic; value is the batch being collected, possibly empty. */
  type BatchMap = map<string, Batch>

  datatype BatchConf = BatchConf(defaultTopic: Limits, topics: map<string, Limits>)

  function LimitsFor(conf: BatchConf, topic: string): Limits {
    if topic in conf.topics then conf.topics[topic] else conf.defaultTopic
  }

  /** Every batched message. */
  ghost function MapBag(m: BatchMap): multiset<Msg> {
    if m == map[] then multiset{}
    else
      var t :| t in m;
      Bag(m[t]) + MapBag(m - {t})
  }

  lemma {:induction false} MapBagRemove(m: BatchMap, t: string)
    requires t in m
    ensures MapBag(m) == Bag(m[t]) + MapBag(m - {t})
    decreases |m|
  {
    hide Bag;
    var u :| u in m && MapBag(m) == Bag(m[u]) + MapBag(m - {u});
    if u == t {
    } else {
      MapBagRemove(m - {u}, t);
      MapBagRemove(m - {t}, u);
      assert m - {u} - {t} == m - {t} - {u};
    }
  }

  lemma MapBagSet(m: BatchMap, t: string, batch: Batch)
    requires t in m
    ensures MapBag(m[t := batch]) + Bag(m[t]) == MapBag(m) + Bag(batch)
  {
    hide Bag;
    MapBagRemove(m, t);
    MapBagRemove(m[t := batch], t);
    assert m[t := batch] - {t} == m - {t};
  }

  lemma MapBagNew(m: BatchMap, t: string)
    requires t !in m
    ensures MapBag(m[t := []]) == MapBag(m)
  {
    MapBagRemove(m[t := []], t);
    assert m[t := []] - {t} == m;
    assert Bodies([]) == [];
  }

  /** Each batch holds AnyPartition messages of its own topic. */
  ghost predicate BatchesSound(m: BatchMap) {
    forall t, i :: t in m && 0 <= i < |m[t]| ==> m[t][i].topic == t && m[t][i].routing.AnyPartition?
  }

  ghost predicate AnyPartitionBatch(batch: Batch, topics: set<string>) {
    SingleTopic(batch) && batch[0].topic in topics && forall i :: 0 <= i < |batch| ==> batch[i].routing.AnyPartition?
  }

  ghost predicate ReadyFor(ready: seq<Batch>, topics: set<string>) {
    forall i :: 0 <= i < |ready| ==> AnyPartitionBatch(ready[i], topics)
  }

  lemma ReadyConcat(a: seq<Batch>, b: seq<Batch>, topics: set<string>)
    requires ReadyFor(a, topics) && ReadyFor(b, topics)
    ensures ReadyFor(a + b, topics)
  {
  }

  lemma ReadyForMore(ready: seq<Batch>, topics: set<string>, more: set<string>)
    requires ReadyFor(ready, topics) && topics <= more
    ensures ReadyFor(ready, more)
  {
  }

  lemma BatchReady(m: BatchMap, t: string)
    requires BatchesSound(m) && t in m && m[t] != []
    ensures ReadyFor([m[t]], m.Keys)
  {
  }

  // ---------------------------------------------------------------- by topic and by time

  function BatchTopic(batch: Batch): string {
    if batch == [] then "" else batch[0].topic
  }

  /** The batches of one topic, in order. */
  ghost function OfTopic(batches: seq<Batch>, topic: string): seq<Batch> {
    Having(batches, BatchTopic, topic)
  }

  ghost function Collected(m: BatchMap, topic: string): Batch {
    if topic in m then m[topic] else []
  }

  /** The topic's batch has waited long enough. */
  predicate Expired(conf: BatchConf, m: BatchMap, now: int, topic: string) {
    topic in m && m[topic] != [] && Due(LimitsFor(conf, topic), m[topic], now)
  }

  function ExpiryOf(conf: BatchConf, batch: Batch): int {
    Expiry(LimitsFor(conf, BatchTopic(batch)), batch)
  }

  ghost predicate InExpiryOrder(conf: BatchConf, ready: seq<Batch>) {
    forall i, j :: 0 <= i <= j < |ready| ==> ExpiryOf(conf, ready[i]) <= ExpiryOf(conf, ready[j])
  }

  /** The topic that expires first. */
  method Soonest(conf: BatchConf, m: BatchMap, topics: set<string>) returns (t: string)
    requires topics != {} && topics <= m.Keys
    ensures t in topics && forall u :: u in topics ==> ExpiryOf(conf, m[t]) <= ExpiryOf(conf, m[u])
  {
    hide ExpiryOf;
    t :| t in topics;
    var todo := topics - {t};
    while todo != {}
      invariant todo <= topics && t in topics
      invariant forall u :: u in topics && u !in todo ==> ExpiryOf(conf, m[t]) <= ExpiryOf(conf, m[u])
      decreases todo
    {
      var u :| u in todo;
      if ExpiryOf(conf, m[u]) < ExpiryOf(conf, m[t]) {
        t := u;
      }
      todo := todo - {u};
    }
  }

  /** Hands over the batches whose time limit has passed, whole, the soonest first. */
  method GetCompleteBatches(conf: BatchConf, m: BatchMap, now: int) returns (m': BatchMap, ready: seq<Batch>)
    requires BatchesSound(m)
    ensures BatchesSound(m') && m'.Keys == m.Keys && ReadyFor(ready, m.Keys)
    ensures MapBag(m') + BatchBag(ready) == MapBag(m)
    ensures forall t :: t in m ==> m'[t] == if Expired(conf, m, now, t) then [] else m[t]
    ensures forall t :: OfTopic(ready, t) == if Expired(conf, m, now, t) then [m[t]] else []
    ensures InExpiryOrder(conf, ready)
  {
    hide MapBag, Bag, BatchBag, ReadyFor, HandedOver, BatchesSound, Due, OfTopic, ExpiryOf, InExpiryOrder;
    m', ready := m, [];
    var expired := set t | t in m && Expired(conf, m, now, t);
    var todo := expired;
    EmptyBag();
    assert ReadyFor(ready, m.Keys) && HandedOver(m, m', ready, {}) && Sooner(conf, ready, m, todo) by {
      NoneHandedOver(conf, m, todo);
    }
    assert expired - todo == {};
    while todo != {}
      invariant todo <= expired
      invariant BatchesSound(m') && m'.Keys == m.Keys && ReadyFor(ready, m.Keys)
      invariant MapBag(m') + BatchBag(ready) == MapBag(m)
      invariant HandedOver(m, m', ready, expired - todo) && Sooner(conf, ready, m, todo)
      decreases todo
    {
      var t := Soonest(conf, m, todo);
      HandOverStep(m, m', ready, expired - todo, t);
      SoonerStep(conf, ready, m, todo, t);
      BatchReady(m', t);
      ReadyConcat(ready, [m'[t]], m.Keys);
      HandOver(m', t, ready);
      ready := ready + [m'[t]];
      m' := m'[t := []];
      assert expired - (todo - {t}) == expired - todo + {t};
      todo := todo - {t};
    }
    assert expired - {} == expired;
    HandedOverEnds(m, m', ready, expired);
  }

  /** The batches of the topics done have been handed over, and no others. */
  ghost predicate HandedOver(m: BatchMap, m': BatchMap, ready: seq<Batch>, done: set<string>) {
    && m'.Keys == m.Keys && (forall t :: t in m ==> m'[t] == if t in done then [] else m[t])
    && AreOut(m, ready, done)
  }

  ghost predicate AreOut(m: BatchMap, ready: seq<Batch>, done: set<string>) {
    done <= m.Keys && forall t :: OfTopic(ready, t) == if t in done && t in m then [m[t]] else []
  }

  ghost predicate Sooner(conf: BatchConf, ready: seq<Batch>, m: BatchMap, todo: set<string>) {
    && InExpiryOrder(conf, ready)
    && forall i, t :: 0 <= i < |ready| && t in todo && t in m ==> ExpiryOf(conf, ready[i]) <= ExpiryOf(conf, m[t])
  }

  lemma NoneHandedOver(conf: BatchConf, m: BatchMap, todo: set<string>)
    ensures ReadyFor([], m.Keys) && HandedOver(m, m, [], {}) && Sooner(conf, [], m, todo)
  {
  }

  lemma HandOverStep(m: BatchMap, m': BatchMap, ready: seq<Batch>, done: set<string>, t: string)
    requires HandedOver(m, m', ready, done) && BatchesSound(m') && BatchesSound(m) && t in m && t !in done && m[t] != []
    ensures m'[t] == m[t] && BatchesSound(m'[t := []]) && m'[t := []].Keys == m.Keys
    ensures HandedOver(m, m'[t := []], ready + [m'[t]], done + {t})
  {
    StillSound(m', t);
    assert BatchTopic(m[t]) == t;
    hide BatchesSound, AreOut;
    OneMoreOut(m, ready, done, t);
  }

  lemma OneMoreOut(m: BatchMap, ready: seq<Batch>, done: set<string>, t: string)
    requires AreOut(m, ready, done) && t in m && t !in done && BatchTopic(m[t]) == t
    ensures AreOut(m, ready + [m[t]], done + {t})
  {
    hide OfTopic;
    forall u ensures OfTopic(ready + [m[t]], u) == if u in done + {t} && u in m then [m[u]] else [] {
      OfTopicSnoc(ready, m[t], u);
      assert OfTopic(ready, t) == [] && [] + [m[t]] == [m[t]];
    }
  }

  lemma StillSound(m: BatchMap, t: string)
    requires BatchesSound(m) && t in m
    ensures BatchesSound(m[t := []])
  {
  }

  lemma OfTopicSnoc(ready: seq<Batch>, b: Batch, u: string)
    ensures OfTopic(ready + [b], u) == if BatchTopic(b) == u then OfTopic(ready, u) + [b] else OfTopic(ready, u)
  {
    HavingSnoc(ready, b, BatchTopic, u);
  }

  lemma SoonerStep(conf: BatchConf, ready: seq<Batch>, m: BatchMap, todo: set<string>, t: string)
    requires Sooner(conf, ready, m, todo) && t in todo && t in m
    requires forall u :: u in todo && u in m ==> ExpiryOf(conf, m[t]) <= ExpiryOf(conf, m[u])
    ensures Sooner(conf, ready + [m[t]], m, todo - {t})
  {
    hide ExpiryOf;
  }

  lemma HandedOverEnds(m: BatchMap, m': BatchMap, ready: seq<Batch>, done: set<string>)
    requires HandedOver(m, m', ready, done)
    ensures forall t :: t in m ==> m'[t] == if t in done then [] else m[t]
    ensures forall t :: OfTopic(ready, t) == if t in done then [m[t]] else []
  {
  }

  lemma HandOver(m: BatchMap, t: string, ready: seq<Batch>)
    requires t in m
    ensures MapBag(m[t := []]) + BatchBag(ready + [m[t]]) == MapBag(m) + BatchBag(ready)
  {
    hide Bag, BatchBag, MapBag;
    MapBagSet(m, t, []);
    BatchBagConcat(ready, [m[t]]);
    BatchBagOne(m[t]);
    EmptyBag();
    var a, b, c, d := MapBag(m[t := []]), Bag(m[t]), MapBag(m), BatchBag(ready);
    assert a + (d + b) == (a + b) + d;
  }

  // ------------------------------------------------------------------ adding a message

  /** What adding a message means for one topic: its own batch takes it as the limits say,
      and all other batches only expire. */
  ghost predicate Handled(conf: BatchConf, m: BatchMap, m': BatchMap, ready: seq<Batch>, msg: Msg, now: int, t: string)
  {
    if t == msg.topic && BatchingIsEnabled(LimitsFor(conf, t)) then
      Outcome(OfTopic(ready, t), Collected(m', t)) == Added(LimitsFor(conf, t), Collected(m, t), msg, now)
    else
      && OfTopic(ready, t) == (if Expired(conf, m, now, t) then [m[t]] else [])
      && Collected(m', t) == (if Expired(conf, m, now, t) then [] else Collected(m, t))
  }

  /** AddMsg of the batcher.  Unless batching is off for the topic, the message is either
      kept or handed back inside a complete batch. */
  method AddMsg(conf: BatchConf, m: BatchMap, msg: Msg, now: int)
    returns (taken: bool, m': BatchMap, ready: seq<Batch>)
    requires BatchesSound(m) && msg.routing.AnyPartition?
    ensures msg.topic in conf.topics ==> (taken <==> BatchingIsEnabled(conf.topics[msg.topic]))
    ensures msg.topic !in conf.topics ==> (taken <==> BatchingIsEnabled(conf.defaultTopic))
    ensures BatchesSound(m') && m'.Keys == m.Keys + {msg.topic} && ReadyFor(ready, m'.Keys)
    ensures MapBag(m') + BatchBag(ready) == MapBag(m) + if taken then Bag([msg]) else multiset{}
    ensures forall t :: Handled(conf, m, m', ready, msg, now, t)
  {
    hide MapBag, Bag, BatchBag, Due, OfTopic, ReadyFor, BatchesSound, InExpiryOrder;
    var t := msg.topic;
    var before := m;
    if t !in m {
      MapBagNew(m, t);
      NewBatch(m, t);
      before := m[t := []];
    }
    var added := before;
    var complete: seq<Batch> := [];
    taken := BatchingIsEnabled(LimitsFor(conf, t));
    EmptyBag();
    assert ReadyFor(complete, before.Keys) by { NothingReady(before.Keys); }
    if taken {
      added, complete := AddToTopic(LimitsFor(conf, t), before, msg, now);
    }
    var expiredBatches;
    m', expiredBatches := GetCompleteBatches(conf, added, now);
    ReadyConcat(expiredBatches, complete, m'.Keys);
    BatchBagConcat(expiredBatches, complete);
    ready := expiredBatches + complete;
    assert MapBag(m') + (BatchBag(expiredBatches) + BatchBag(complete)) ==
           (MapBag(m') + BatchBag(expiredBatches)) + BatchBag(complete);
    forall u ensures Handled(conf, m, m', ready, msg, now, u) {
      if taken {
        AddedHandled(conf, m, added, m', expiredBatches, complete, msg, now, u);
      } else {
        OffHandled(conf, m, before, m', expiredBatches, msg, now, u);
      }
    }
  }

  /** The topic's own batch takes the message. */
  method AddToTopic(limits: Limits, m: BatchMap, msg: Msg, now: int) returns (m': BatchMap, complete: seq<Batch>)
    requires BatchesSound(m) && msg.routing.AnyPartition? && msg.topic in m
    ensures BatchesSound(m') && m'.Keys == m.Keys && ReadyFor(complete, m.Keys)
    ensures MapBag(m') + BatchBag(complete) == MapBag(m) + Bag([msg])
    ensures m' - {msg.topic} == m - {msg.topic}
    ensures Outcome(complete, m'[msg.topic]) == Added(limits, m[msg.topic], msg, now)
  {
    hide MapBag, Bag, BatchBag, Complete, Overfull;
    var outcome := Added(limits, m[msg.topic], msg, now);
    complete, m' := outcome.ready, m[msg.topic := outcome.kept];
    AddedBag(m, msg.topic, outcome.kept, complete, msg);
  }

  lemma NewBatch(m: BatchMap, t: string)
    requires BatchesSound(m) && t !in m
    ensures BatchesSound(m[t := []])
  {
  }

  lemma NothingReady(topics: set<string>)
    ensures ReadyFor([], topics)
  {
  }

  lemma {:induction false} OfTopicConcat(a: seq<Batch>, b: seq<Batch>, t: string)
    ensures OfTopic(a + b, t) == OfTopic(a, t) + OfTopic(b, t)
  {
    if b == [] {
      assert a + b == a && OfTopic(a, t) + [] == OfTopic(a, t);
    } else {
      var n := |b| - 1;
      OfTopicConcat(a, b[..n], t);
      assert (a + b)[..|a + b| - 1] == a + b[..n];
    }
  }

  lemma {:induction false} AllOfTopic(batches: seq<Batch>, topic: string, t: string)
    requires forall b :: b in batches ==> BatchTopic(b) == topic
    ensures OfTopic(batches, t) == if t == topic then batches else []
  {
    if batches == [] {
    } else {
      var n := |batches| - 1;
      AllOfTopic(batches[..n], topic, t);
      assert batches[n] in batches && batches == batches[..n] + [batches[n]];
    }
  }

  lemma AddedTopics(limits: Limits, m: BatchMap, msg: Msg, now: int)
    requires BatchesSound(m) && msg.topic in m
    ensures forall b :: b in Added(limits, m[msg.topic], msg, now).ready ==> BatchTopic(b) == msg.topic
  {
    hide Complete, Overfull;
  }

  lemma AddedHandled(conf: BatchConf, m: BatchMap, added: BatchMap, m': BatchMap, expired: seq<Batch>,
      complete: seq<Batch>, msg: Msg, now: int, u: string)
    requires BatchesSound(m) && BatchingIsEnabled(LimitsFor(conf, msg.topic)) && msg.topic in added
    requires added - {msg.topic} == m - {msg.topic} && added.Keys == m'.Keys == m.Keys + {msg.topic}
    requires Outcome(complete, added[msg.topic]) == Added(LimitsFor(conf, msg.topic), Collected(m, msg.topic), msg, now)
    requires u in added ==> m'[u] == if Expired(conf, added, now, u) then [] else added[u]
    requires OfTopic(expired, u) == if Expired(conf, added, now, u) then [added[u]] else []
    ensures Handled(conf, m, m', expired + complete, msg, now, u)
  {
    var t := msg.topic;
    hide Added, Due, OfTopic, BatchingIsEnabled, LimitsFor, BatchesSound;
    OfTopicConcat(expired, complete, u);
    TakenIn(LimitsFor(conf, t), m, msg, now, complete, added[t]);
    AllOfTopic(complete, t, u);
    if u == t {
      assert [] + complete == complete;
    } else {
      assert OfTopic(expired, u) + [] == OfTopic(expired, u);
      OtherTopic(m, added, t, u);
    }
  }

  lemma OtherTopic(m: BatchMap, m': BatchMap, t: string, u: string)
    requires m - {t} == m' - {t} && u != t
    ensures (u in m <==> u in m') && (u in m ==> m[u] == m'[u])
  {
    assert u in m <==> u in m - {t};
    assert u in m' <==> u in m' - {t};
    if u in m {
      assert (m - {t})[u] == (m' - {t})[u];
    }
  }

  lemma TakenIn(limits: Limits, m: BatchMap, msg: Msg, now: int, complete: seq<Batch>, kept: Batch)
    requires BatchesSound(m) && Outcome(complete, kept) == Added(limits, Collected(m, msg.topic), msg, now)
    ensures forall b :: b in complete ==> BatchTopic(b) == msg.topic
    ensures kept == [] || !Due(limits, kept, now)
  {
    AddedTopics(limits, if msg.topic in m then m else m[msg.topic := []], msg, now);
    KeptIsIncomplete(limits, Collected(m, msg.topic), msg, now);
  }

  lemma OffHandled(conf: BatchConf, m: BatchMap, before: BatchMap, m': BatchMap, expired: seq<Batch>, msg: Msg,
      now: int, u: string)
    requires !BatchingIsEnabled(LimitsFor(conf, msg.topic))
    requires before == (if msg.topic in m then m else m[msg.topic := []]) && m'.Keys == before.Keys
    requires u in before ==> m'[u] == if Expired(conf, before, now, u) then [] else before[u]
    requires OfTopic(expired, u) == if Expired(conf, before, now, u) then [before[u]] else []
    ensures Handled(conf, m, m', expired + [], msg, now, u)
  {
    hide OfTopic;
    assert expired + [] == expired;
  }

  /** The ways in which a batch and a new message can be split into what is kept and
      what is returned. */
  ghost predicate SplitOf(batch: Batch, msg: Msg, kept: Batch, complete: seq<Batch>) {
    || (kept == [] && complete == (if batch == [] then [] else [batch]) + [[msg]])
    || (kept == [msg] && complete == if batch == [] then [] else [batch])
    || (kept == [] && complete == [batch + [msg]])
    || (kept == batch + [msg] && complete == [])
  }

  lemma SplitBag(batch: Batch, msg: Msg, kept: Batch, complete: seq<Batch>)
    requires SplitOf(batch, msg, kept, complete)
    ensures Bag(kept) + BatchBag(complete) == Bag(batch) + Bag([msg])
  {
    hide Bag, BatchBag;
    EmptyBag();
    if kept == batch + [msg] && complete == [] {
      BagConcat(batch, [msg]);
    } else if complete == [batch + [msg]] {
      BagConcat(batch, [msg]);
      BatchBagOne(batch + [msg]);
    } else if kept == [msg] && complete == if batch == [] then [] else [batch] {
      BatchBagOne(batch);
    } else if batch == [] {
      assert complete == [[msg]];
      BatchBagOne([msg]);
    } else {
      BatchBagConcat([batch], [[msg]]);
      BatchBagOne(batch);
      BatchBagOne([msg]);
    }
  }

  lemma Exchange<T>(after: multiset<T>, before: multiset<T>, b: multiset<T>, k: multiset<T>, c: multiset<T>,
      one: multiset<T>)
    requires after + b == before + k && k + c == b + one
    ensures after + c == before + one
  {
    assert (after + c) + b == (after + b) + c;
    assert (before + k) + c == before + (k + c);
    assert before + (b + one) == (before + one) + b;
    assert after + c == (after + c) + b - b;
    assert before + one == (before + one) + b - b;
  }

  lemma AddedBag(m: BatchMap, t: string, kept: Batch, complete: seq<Batch>, msg: Msg)
    requires t in m && SplitOf(m[t], msg, kept, complete)
    ensures MapBag(m[t := kept]) + BatchBag(complete) == MapBag(m) + Bag([msg])
  {
    hide Bag, BatchBag, MapBag;
    SplitBag(m[t], msg, kept, complete);
    MapBagSet(m, t, kept);
    Exchange(MapBag(m[t := kept]), MapBag(m), Bag(m[t]), Bag(kept), BatchBag(complete), Bag([msg]));
  }

  method DeleteTopic(m: BatchMap, t: string) returns (m': BatchMap, batch: Batch)
    ensures m' == m - {t}
    ensures batch == if t in m then m[t] else []
    ensures MapBag(m') + Bag(batch) == MapBag(m)
  {
    if t in m {
      MapBagRemove(m, t);
      batch, m' := m[t], m - {t};
    } else {
      EmptyBag();
      batch, m' := [], m;
      assert m - {t} == m;
    }
  }

  // --------------------------------------------------------------- adding many messages

  /** For each topic, what has come out and then what is still collected are what was
      collected before and then what has joined, in order. */
  ghost predicate TopicsInOrder(m0: BatchMap, m: BatchMap, ready: seq<Batch>, joined: seq<Msg>) {
    forall t :: TopicInOrder(m0, m, ready, joined, t)
  }

  ghost predicate TopicInOrder(m0: BatchMap, m: BatchMap, ready: seq<Batch>, joined: seq<Msg>, t: string) {
    Flat(OfTopic(ready, t)) + Collected(m, t) == Collected(m0, t) + Having(joined, TopicOf, t)
  }

  /** A batch comes out when it is complete, or when a message that joins would make it too
      large. */
  ghost predicate Justified(limits: Limits, b: Batch, joined: seq<Msg>, now: int) {
    Complete(limits, b, now) || exists x :: x in joined && x.topic == BatchTopic(b) && Overfull(limits, b + [x])
  }

  ghost predicate AllJustified(conf: BatchConf, ready: seq<Batch>, joined: seq<Msg>, now: int) {
    forall b :: b in ready ==>
      && (BatchTopic(b) in conf.topics ==> Justified(conf.topics[BatchTopic(b)], b, joined, now))
      && (BatchTopic(b) !in conf.topics ==> Justified(conf.defaultTopic, b, joined, now))
  }

  /** No batch has as many messages or bytes as its topic may have. */
  ghost predicate NoneFull(conf: BatchConf, m: BatchMap) {
    forall t :: t in m && m[t] != [] ==>
      && (t in conf.topics ==> !Full(conf.topics[t], m[t]))
      && (t !in conf.topics ==> !Full(conf.defaultTopic, m[t]))
  }

  /** No batch has waited as long as its topic may wait. */
  ghost predicate NoneDue(conf: BatchConf, m: BatchMap, now: int) {
    forall t :: t in m && m[t] != [] ==>
      && (t in conf.topics ==> !Due(conf.topics[t], m[t], now))
      && (t !in conf.topics ==> !Due(conf.defaultTopic, m[t], now))
  }

  lemma NothingJoined(conf: BatchConf, m: BatchMap, now: int)
    ensures TopicsInOrder(m, m, [], []) && AllJustified(conf, [], [], now)
  {
  }

  lemma MsgHandled(conf: BatchConf, m0: BatchMap, m: BatchMap, ready: seq<Batch>, joined: seq<Msg>,
      m': BatchMap, more: seq<Batch>, msg: Msg, now: int)
    requires TopicsInOrder(m0, m, ready, joined) && AllJustified(conf, ready, joined, now) && NoneFull(conf, m)
    requires forall t :: Handled(conf, m, m', more, msg, now, t)
    ensures
      var joined' := joined + if BatchingIsEnabled(LimitsFor(conf, msg.topic)) then [msg] else [];
      TopicsInOrder(m0, m', ready + more, joined') && AllJustified(conf, ready + more, joined', now)
    ensures NoneFull(conf, m') && NoneDue(conf, m', now)
  {
    hide TopicInOrder, AllJustified, NoneFull, NoneDue, Handled, LimitsFor, BatchingIsEnabled;
    var joined' := joined + if BatchingIsEnabled(LimitsFor(conf, msg.topic)) then [msg] else [];
    forall t ensures TopicInOrder(m0, m', ready + more, joined', t) {
      OrderStep(conf, m0, m, ready, joined, m', more, msg, now, t);
    }
    JustifiedStep(conf, m, ready, joined, m', more, msg, now, joined');
    LimitsStep(conf, m, m', more, msg, now);
  }

  lemma OrderStep(conf: BatchConf, m0: BatchMap, m: BatchMap, ready: seq<Batch>, joined: seq<Msg>,
      m': BatchMap, more: seq<Batch>, msg: Msg, now: int, t: string)
    requires TopicInOrder(m0, m, ready, joined, t) && Handled(conf, m, m', more, msg, now, t)
    ensures
      var joined' := joined + if BatchingIsEnabled(LimitsFor(conf, msg.topic)) then [msg] else [];
      TopicInOrder(m0, m', ready + more, joined', t)
  {
    hide Added, Due, OfTopic, Flat, Having, BatchingIsEnabled, LimitsFor;
    OfTopicConcat(ready, more, t);
    FlatConcat(OfTopic(ready, t), OfTopic(more, t));
    HavingSnoc(joined, msg, TopicOf, t);
    AddedInOrder(LimitsFor(conf, t), Collected(m, t), msg, now);
    assert joined + [] == joined;
    FlatFew(Collected(m, t));
    var out, old', new' := Flat(OfTopic(ready, t)), Collected(m0, t), Having(joined, TopicOf, t);
    if t == msg.topic && BatchingIsEnabled(LimitsFor(conf, t)) {
      assert out + Flat(OfTopic(more, t)) + Collected(m', t) == out + (Collected(m, t) + [msg]);
      assert out + Collected(m, t) + [msg] == old' + (new' + [msg]);
    } else {
      assert out + Flat(OfTopic(more, t)) + Collected(m', t) == out + Collected(m, t);
    }
  }

  lemma FlatFew(b: Batch)
    ensures Flat([]) == [] && Flat([b]) == b
  {
    assert [b][..0] == [];
  }

  lemma JustifiedStep(conf: BatchConf, m: BatchMap, ready: seq<Batch>, joined: seq<Msg>,
      m': BatchMap, more: seq<Batch>, msg: Msg, now: int, joined': seq<Msg>)
    requires AllJustified(conf, ready, joined, now) && forall t :: Handled(conf, m, m', more, msg, now, t)
    requires joined' == joined + if BatchingIsEnabled(LimitsFor(conf, msg.topic)) then [msg] else []
    ensures AllJustified(conf, ready + more, joined', now)
  {
    hide Complete, Overfull, BatchingIsEnabled, Handled;
    forall b | b in more ensures Justified(LimitsFor(conf, BatchTopic(b)), b, joined', now) {
      HandledReason(conf, m, m', more, msg, now, b, joined');
    }
    forall b | b in ready ensures Justified(LimitsFor(conf, BatchTopic(b)), b, joined', now) {
      assert Justified(LimitsFor(conf, BatchTopic(b)), b, joined, now);
      assert forall x :: x in joined ==> x in joined';
    }
  }

  lemma HandledReason(conf: BatchConf, m: BatchMap, m': BatchMap, more: seq<Batch>, msg: Msg, now: int, b: Batch,
      joined: seq<Msg>)
    requires b in more && Handled(conf, m, m', more, msg, now, BatchTopic(b))
    requires BatchingIsEnabled(LimitsFor(conf, msg.topic)) ==> msg in joined
    ensures Justified(LimitsFor(conf, BatchTopic(b)), b, joined, now)
  {
    hide Overfull, Due, Full, BatchingIsEnabled, LimitsFor, Added, Having;
    var t, limits := BatchTopic(b), LimitsFor(conf, BatchTopic(b));
    HavingElements(more, BatchTopic, t);
    assert b in OfTopic(more, t);
    if t == msg.topic && BatchingIsEnabled(limits) {
      ReadyForReason(limits, Collected(m, t), msg, now, b);
    }
  }

  lemma LimitsStep(conf: BatchConf, m: BatchMap, m': BatchMap, more: seq<Batch>, msg: Msg, now: int)
    requires NoneFull(conf, m) && forall t :: Handled(conf, m, m', more, msg, now, t)
    ensures NoneFull(conf, m') && NoneDue(conf, m', now)
  {
    hide Due, Full, OfTopic, Added, BatchingIsEnabled;
    forall t | t in m' && m'[t] != []
      ensures !Full(LimitsFor(conf, t), m'[t]) && !Due(LimitsFor(conf, t), m'[t], now)
    {
      assert Handled(conf, m, m', more, msg, now, t);
      KeptIsIncomplete(LimitsFor(conf, t), Collected(m, t), msg, now);
    }
  }
}
