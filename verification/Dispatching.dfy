/** The dispatcher as the router sees it: one pair of batch queues per in-service broker. */
module Dispatching {
  import opened BrokerMerge
  import opened Messages
  import opened Sorting

  /** Batches sent but not acknowledged, and batches waiting to be sent. */
  datatype Queue = Queue(noAck: seq<Batch>, sendWait: seq<Batch>)

  datatype Dispatch = Dispatch(broker: nat, batch: Batch)

  function BrokerOf(e: Dispatch): nat {
    e.broker
  }

  function BatchOf(e: Dispatch): Batch {
    e.batch
  }

  function Batches(es: seq<Dispatch>): seq<Batch> {
    Mapped(BatchOf, es)
  }

  lemma BatchesSnoc(es: seq<Dispatch>, e: Dispatch)
    ensures Batches(es + [e]) == Batches(es) + [e.batch]
  {
    MappedConcat(BatchOf, es, [e]);
    assert BatchOf(e) == e.batch;
    assert Mapped(BatchOf, [e]) == [e.batch];
  }

  predicate InRange(es: seq<Dispatch>, brokerCount: nat) {
    forall e :: e in es ==> e.broker < brokerCount
  }

  function Enqueue(queues: seq<Queue>, e: Dispatch): seq<Queue>
    requires e.broker < |queues|
  {
    queues[e.broker := queues[e.broker].(sendWait := queues[e.broker].sendWait + [e.batch])]
  }

  ghost function EnqueueAll(queues: seq<Queue>, es: seq<Dispatch>): (r: seq<Queue>)
    requires InRange(es, |queues|)
    ensures |r| == |queues|
  {
    if es == [] then queues else Enqueue(EnqueueAll(queues, es[..|es| - 1]), es[|es| - 1])
  }

  lemma {:induction false} EnqueueMore(queues: seq<Queue>, a: seq<Dispatch>, b: seq<Dispatch>)
    requires InRange(a, |queues|) && InRange(b, |queues|)
    ensures InRange(a + b, |queues|)
    ensures EnqueueAll(queues, a + b) == EnqueueAll(EnqueueAll(queues, a), b)
  {
    if b == [] {
      assert a + b == a;
    } else {
      var n := |b| - 1;
      EnqueueMore(queues, a, b[..n]);
      assert (a + b)[..|a + b| - 1] == a + b[..n];
    }
  }

  /** Each broker's batches join the end of its own queue, in order. */
  lemma {:induction false} EnqueueAllAt(queues: seq<Queue>, es: seq<Dispatch>, broker: nat)
    requires InRange(es, |queues|) && broker < |queues|
    ensures EnqueueAll(queues, es)[broker] ==
      Queue(queues[broker].noAck, queues[broker].sendWait + Batches(Having<Dispatch, nat>(es, BrokerOf, broker)))
  {
    if es == [] {
      assert Having<Dispatch, nat>(es, BrokerOf, broker) == [];
      assert Batches([]) == [];
    } else {
      var n := |es| - 1;
      EnqueueAllAt(queues, es[..n], broker);
      assert es == es[..n] + [es[n]];
      HavingSnoc<Dispatch, nat>(es[..n], es[n], BrokerOf, broker);
      BatchesSnoc(Having<Dispatch, nat>(es[..n], BrokerOf, broker), es[n]);
      hide EnqueueAll, Batches, Having;
      assert EnqueueAll(queues, es) == Enqueue(EnqueueAll(queues, es[..n]), es[n]) by { EnqueueLast(queues, es); }
    }
  }

  lemma EnqueueLast(queues: seq<Queue>, es: seq<Dispatch>)
    requires InRange(es, |queues|) && es != []
    ensures EnqueueAll(queues, es) == Enqueue(EnqueueAll(queues, es[..|es| - 1]), es[|es| - 1])
  {
  }

  // ------------------------------------------------------------- what the queues hold

  function HeldBatches(queues: seq<Queue>): seq<Batch> {
    if queues == [] then []
    else
      var last := queues[|queues| - 1];
      HeldBatches(queues[..|queues| - 1]) + (last.noAck + last.sendWait)
  }

  predicate AllSingleTopic(batches: seq<Batch>) {
    forall b :: b in batches ==> SingleTopic(b)
  }

  ghost function Own(q: Queue): seq<Batch> {
    q.noAck + q.sendWait
  }

  lemma HeldLast(queues: seq<Queue>)
    requires queues != []
    ensures HeldBatches(queues) == HeldBatches(queues[..|queues| - 1]) + Own(queues[|queues| - 1])
  {
  }

  lemma CountMore<T>(a: seq<T>, b: seq<T>, x: T, c: seq<T>)
    requires multiset(a) == multiset(b) + multiset{x}
    ensures multiset(a + c) == multiset(b + c) + multiset{x}
  {
  }

  lemma CountSnoc<T>(a: seq<T>, own: seq<T>, x: T)
    ensures multiset(a + (own + [x])) == multiset(a + own) + multiset{x}
  {
  }

  lemma {:induction false} EnqueueHeld(queues: seq<Queue>, e: Dispatch)
    requires e.broker < |queues|
    ensures multiset(HeldBatches(Enqueue(queues, e))) == multiset(HeldBatches(queues)) + multiset{e.batch}
  {
    hide HeldBatches, Own;
    var n := |queues| - 1;
    var queues' := Enqueue(queues, e);
    HeldLast(queues);
    HeldLast(queues');
    if e.broker == n {
      assert queues'[..n] == queues[..n];
      OwnSnoc(queues[n], e.batch);
      CountSnoc(HeldBatches(queues[..n]), Own(queues[n]), e.batch);
    } else {
      EnqueueHeld(queues[..n], e);
      assert queues'[..n] == Enqueue(queues[..n], e);
      CountMore(HeldBatches(queues'[..n]), HeldBatches(queues[..n]), e.batch, Own(queues[n]));
    }
  }

  lemma OwnSnoc(q: Queue, batch: Batch)
    ensures Own(q.(sendWait := q.sendWait + [batch])) == Own(q) + [batch]
  {
  }

  lemma {:induction false} EnqueueAllHeld(queues: seq<Queue>, es: seq<Dispatch>)
    requires InRange(es, |queues|)
    ensures multiset(HeldBatches(EnqueueAll(queues, es))) == multiset(HeldBatches(queues)) + multiset(Batches(es))
  {
    hide HeldBatches;
    if es == [] {
      assert Batches(es) == [];
    } else {
      var n := |es| - 1;
      EnqueueAllHeld(queues, es[..n]);
      EnqueueHeld(EnqueueAll(queues, es[..n]), es[n]);
      assert es == es[..n] + [es[n]];
      BatchesSnoc(es[..n], es[n]);
      hide EnqueueAll, Enqueue, Batches;
      assert multiset(Batches(es[..n]) + [es[n].batch]) == multiset(Batches(es[..n])) + multiset{es[n].batch};
    }
  }

  /** Dispatching adds exactly the dispatched messages, and keeps batches well formed. */
  lemma EnqueueAllBag(queues: seq<Queue>, es: seq<Dispatch>)
    requires InRange(es, |queues|)
    ensures BatchBag(HeldBatches(EnqueueAll(queues, es))) == BatchBag(HeldBatches(queues)) + BatchBag(Batches(es))
    ensures AllSingleTopic(HeldBatches(queues)) && AllSingleTopic(Batches(es)) ==>
      AllSingleTopic(HeldBatches(EnqueueAll(queues, es)))
  {
    hide BatchBag, HeldBatches, EnqueueAll;
    var held, held', added := HeldBatches(queues), HeldBatches(EnqueueAll(queues, es)), Batches(es);
    EnqueueAllHeld(queues, es);
    assert multiset(held') == multiset(held + added);
    BatchBagPermuted(held', held + added);
    BatchBagConcat(held, added);
    SameElements(held', held + added);
  }

  // -------------------------------------------------------- emptying a stopped dispatcher

  /** Each broker's batches, unacknowledged ones first, for the brokers that hold any. */
  ghost function BrokerLists(queues: seq<Queue>): seq<seq<Batch>> {
    if queues == [] then []
    else
      var last := queues[|queues| - 1];
      var rest := BrokerLists(queues[..|queues| - 1]);
      if last.noAck + last.sendWait == [] then rest else rest + [last.noAck + last.sendWait]
  }

  ghost function Unacknowledged(queues: seq<Queue>): seq<Msg> {
    if queues == [] then [] else Unacknowledged(queues[..|queues| - 1]) + Flat(queues[|queues| - 1].noAck)
  }

  /** Sent to the broker, and not acknowledged. */
  ghost predicate AwaitsAck(queues: seq<Queue>, m: Msg) {
    exists i, b :: 0 <= i < |queues| && b in queues[i].noAck && m in b
  }

  lemma {:induction false} FlatElements(batches: seq<Batch>, m: Msg)
    ensures m in Flat(batches) <==> exists b :: b in batches && m in b
  {
    if batches == [] {
    } else {
      var n := |batches| - 1;
      FlatElements(batches[..n], m);
      assert batches == batches[..n] + [batches[n]];
    }
  }

  lemma {:induction false} UnacknowledgedIff(queues: seq<Queue>, m: Msg)
    ensures m in Unacknowledged(queues) <==> AwaitsAck(queues, m)
  {
    if queues == [] {
    } else {
      hide Flat, AwaitsAck;
      var n := |queues| - 1;
      UnacknowledgedIff(queues[..n], m);
      AwaitsAckLast(queues, m);
    }
  }

  lemma AwaitsAckLast(queues: seq<Queue>, m: Msg)
    requires queues != []
    ensures var n := |queues| - 1;
      AwaitsAck(queues, m) <==> AwaitsAck(queues[..n], m) || m in Flat(queues[n].noAck)
  {
    hide Flat;
    var n := |queues| - 1;
    FlatElements(queues[n].noAck, m);
    if i, b :| 0 <= i < |queues| && b in queues[i].noAck && m in b {
      assert i < n ==> queues[..n][i] == queues[i];
    }
    if i, b :| 0 <= i < n && b in queues[..n][i].noAck && m in b {
      assert queues[i] == queues[..n][i];
    }
  }

  /** A broker's list starts with what it has been sent. */
  lemma {:induction false} SentFirst(queues: seq<Queue>, i: nat) returns (l: nat)
    requires i < |queues| && queues[i].noAck + queues[i].sendWait != []
    ensures l < |BrokerLists(queues)| && BrokerLists(queues)[l] == queues[i].noAck + queues[i].sendWait
    decreases |queues|
  {
    var n := |queues| - 1;
    if i == n {
      l := |BrokerLists(queues[..n])|;
    } else {
      l := SentFirst(queues[..n], i);
    }
  }

  lemma {:induction false} BrokerListsHold(queues: seq<Queue>)
    ensures Total(BrokerLists(queues)) == multiset(HeldBatches(queues))
    ensures forall l :: 0 <= l < |BrokerLists(queues)| ==> BrokerLists(queues)[l] != []
  {
    if queues == [] {
    } else {
      hide HeldBatches, Total;
      var n := |queues| - 1;
      BrokerListsHold(queues[..n]);
      HeldLast(queues);
      TotalSnoc(BrokerLists(queues[..n]), HeldBatches(queues[..n]), Own(queues[n]));
    }
  }

  lemma TotalSnoc<T>(lists: seq<seq<T>>, held: seq<T>, own: seq<T>)
    requires Total(lists) == multiset(held)
    ensures Total(lists + [own]) == multiset(held + own)
    ensures own == [] ==> Total(lists) == multiset(held + own)
  {
  }

  /** EmptyDispatcher: everything the dispatcher held, merged fairly, each unacknowledged
      message reported as a possible duplicate. */
  method EmptyDispatcher(queues: seq<Queue>)
    returns (result: seq<Batch>, duplicates: seq<Msg>)
    ensures exists origin :: FairMerge(BrokerLists(queues), result, origin)
    ensures multiset(result) == multiset(HeldBatches(queues))
    ensures duplicates == Unacknowledged(queues)
    ensures forall m :: m in duplicates <==> AwaitsAck(queues, m)
  {
    var lists: seq<seq<Batch>> := [];
    duplicates := [];
    for i := 0 to |queues|
      invariant lists == BrokerLists(queues[..i]) && duplicates == Unacknowledged(queues[..i])
    {
      assert queues[..i + 1][..i] == queues[..i];
      var tmp := queues[i].noAck;
      duplicates := duplicates + Flat(tmp);
      tmp := tmp + queues[i].sendWait;
      if tmp != [] {
        lists := lists + [tmp];
      }
    }
    assert queues[..|queues|] == queues;
    BrokerListsHold(queues);
    forall m ensures m in duplicates <==> AwaitsAck(queues, m) {
      UnacknowledgedIff(queues, m);
    }
    hide AwaitsAck, Unacknowledged;
    result := EmptyInto(lists);
  }
}
