/** Where the router's messages are, counted: being batched, queued in the dispatcher,
    discarded, or done. */
module Accounting {
  import opened Batching
  import opened Dispatching
  import opened Messages

  ghost function Ledger(m: BatchMap, queues: seq<Queue>, discarded: seq<Msg>, finished: seq<Msg>): multiset<Msg> {
    MapBag(m) + BatchBag(HeldBatches(queues)) + Bag(discarded) + Bag(finished)
  }

  lemma LedgerSent(m: BatchMap, queues: seq<Queue>, discarded: seq<Msg>, finished: seq<Msg>, sent: seq<Dispatch>)
    requires InRange(sent, |queues|)
    ensures Ledger(m, EnqueueAll(queues, sent), discarded, finished) ==
            Ledger(m, queues, discarded, finished) + BatchBag(Batches(sent))
  {
    hide MapBag, Bag, BatchBag, HeldBatches, EnqueueAll;
    EnqueueAllBag(queues, sent);
    MoveSecond(MapBag(m), BatchBag(HeldBatches(queues)), BatchBag(Batches(sent)), Bag(discarded), Bag(finished));
  }

  lemma LedgerDiscarded(m: BatchMap, queues: seq<Queue>, discarded: seq<Msg>, finished: seq<Msg>, ms: seq<Msg>)
    ensures Ledger(m, queues, discarded + ms, finished) == Ledger(m, queues, discarded, finished) + Bag(ms)
  {
    hide MapBag, Bag, BatchBag, HeldBatches;
    BagConcat(discarded, ms);
    MoveSecond(MapBag(m) + BatchBag(HeldBatches(queues)), Bag(discarded), Bag(ms), Bag(finished), multiset{});
  }

  lemma LedgerBatched(m: BatchMap, m': BatchMap, queues: seq<Queue>, discarded: seq<Msg>, finished: seq<Msg>,
                      out: multiset<Msg>, added: multiset<Msg>)
    requires MapBag(m') + out == MapBag(m) + added
    ensures Ledger(m', queues, discarded, finished) + out == Ledger(m, queues, discarded, finished) + added
  {
    hide MapBag, Bag, BatchBag, HeldBatches;
    var rest := BatchBag(HeldBatches(queues)) + Bag(discarded) + Bag(finished);
    assert Ledger(m', queues, discarded, finished) == MapBag(m') + rest;
    assert Ledger(m, queues, discarded, finished) == MapBag(m) + rest;
    SwapAddend(MapBag(m'), out, rest);
    SwapAddend(MapBag(m), added, rest);
  }

  /** The dispatcher works on its queues: it sends, retries, regroups and gives up, and
      accounts for every message. */
  lemma LedgerProgress(m: BatchMap, queues: seq<Queue>, queues': seq<Queue>, discarded: seq<Msg>, finished: seq<Msg>,
                       dropped: seq<Msg>, done: seq<Msg>)
    requires BatchBag(HeldBatches(queues')) + Bag(dropped) + Bag(done) == BatchBag(HeldBatches(queues))
    ensures Ledger(m, queues', discarded + dropped, finished + done) == Ledger(m, queues, discarded, finished)
  {
    hide MapBag, Bag, BatchBag, HeldBatches;
    BagConcat(discarded, dropped);
    BagConcat(finished, done);
    Collect(MapBag(m), BatchBag(HeldBatches(queues')), Bag(discarded), Bag(dropped), Bag(finished), Bag(done));
  }

  /** The dispatcher is emptied and restarted with as many empty queues as there are brokers now. */
  lemma LedgerEmptied(m: BatchMap, queues: seq<Queue>, fresh': seq<Queue>, discarded: seq<Msg>, finished: seq<Msg>,
      held: seq<Batch>)
    requires HeldBatches(fresh') == [] && multiset(held) == multiset(HeldBatches(queues))
    ensures Ledger(m, fresh', discarded, finished) + BatchBag(held) == Ledger(m, queues, discarded, finished)
  {
    BatchBagPermuted(held, HeldBatches(queues));
    hide MapBag, Bag, BatchBag, HeldBatches;
    EmptyBag();
    MoveSecond(MapBag(m), multiset{}, BatchBag(held), Bag(discarded), Bag(finished));
    assert multiset{} + BatchBag(held) == BatchBag(held);
  }

  lemma LedgerRerouted(m: BatchMap, queues: seq<Queue>, discarded: seq<Msg>, finished: seq<Msg>,
                       rejected: seq<Batch>, sent: seq<Dispatch>, held: seq<Batch>)
    requires InRange(sent, |queues|) && BatchBag(Batches(sent)) + BatchBag(rejected) == BatchBag(held)
    ensures Ledger(m, EnqueueAll(queues, sent), discarded + Flat(rejected), finished) ==
            Ledger(m, queues, discarded, finished) + BatchBag(held)
  {
    assert Bag(Flat(rejected)) == BatchBag(rejected);
    hide Ledger, Bag, BatchBag, Flat, EnqueueAll;
    LedgerSent(m, queues, discarded, finished, sent);
    LedgerDiscarded(m, EnqueueAll(queues, sent), discarded, finished, Flat(rejected));
    var l := Ledger(m, queues, discarded, finished);
    assert l + BatchBag(Batches(sent)) + BatchBag(rejected) == l + (BatchBag(Batches(sent)) + BatchBag(rejected));
  }

  lemma MoveSecond<T>(a: multiset<T>, b: multiset<T>, x: multiset<T>, c: multiset<T>, d: multiset<T>)
    ensures a + (b + x) + c + d == (a + b + c + d) + x
    ensures a + (b + x) + c == (a + b + c) + x
  {
  }

  lemma SwapAddend<T>(a: multiset<T>, x: multiset<T>, rest: multiset<T>)
    ensures (a + rest) + x == (a + x) + rest
  {
  }

  lemma Collect<T>(a: multiset<T>, b: multiset<T>, c: multiset<T>, x: multiset<T>, d: multiset<T>, y: multiset<T>)
    ensures a + b + (c + x) + (d + y) == a + (b + x + y) + c + d
  {
  }

  lemma {:induction false} FreshHoldsNothing(n: nat)
    ensures HeldBatches(seq(n, i requires 0 <= i < n => Queue([], []))) == []
  {
    if n == 0 {
    } else {
      FreshHoldsNothing(n - 1);
      var queues := seq(n, i requires 0 <= i < n => Queue([], []));
      assert queues[..n - 1] == seq(n - 1, i requires 0 <= i < n - 1 => Queue([], []));
    }
  }

  // ------------------------------------------------------ while taking in new messages

  /** What the batcher holds and what has been set aside so far. */
  ghost function Pending(m: BatchMap, discarded: seq<Msg>, ready: seq<Batch>, remaining: seq<Msg>): multiset<Msg> {
    MapBag(m) + Bag(discarded) + BatchBag(ready) + Bag(remaining)
  }

  lemma PendingStart(m: BatchMap, discarded: seq<Msg>)
    ensures Pending(m, discarded, [], []) == MapBag(m) + Bag(discarded)
  {
  }

  lemma PendingDiscard(m: BatchMap, discarded: seq<Msg>, ready: seq<Batch>, remaining: seq<Msg>, msg: Msg)
    ensures Pending(m, discarded + [msg], ready, remaining) == Pending(m, discarded, ready, remaining) + Bag([msg])
  {
    hide MapBag, Bag, BatchBag;
    BagConcat(discarded, [msg]);
    MoveSecond(MapBag(m), Bag(discarded), Bag([msg]), BatchBag(ready), Bag(remaining));
  }

  lemma PendingRemain(m: BatchMap, discarded: seq<Msg>, ready: seq<Batch>, remaining: seq<Msg>, msg: Msg)
    ensures Pending(m, discarded, ready, remaining + [msg]) == Pending(m, discarded, ready, remaining) + Bag([msg])
  {
    hide MapBag, Bag, BatchBag;
    BagConcat(remaining, [msg]);
    var a := MapBag(m) + Bag(discarded) + BatchBag(ready);
    assert a + (Bag(remaining) + Bag([msg])) == (a + Bag(remaining)) + Bag([msg]);
  }

  lemma PendingBatched(m: BatchMap, m': BatchMap, discarded: seq<Msg>, ready: seq<Batch>, more: seq<Batch>,
      remaining: seq<Msg>,
                       added: multiset<Msg>)
    requires MapBag(m') + BatchBag(more) == MapBag(m) + added
    ensures Pending(m', discarded, ready + more, remaining) == Pending(m, discarded, ready, remaining) + added
  {
    hide MapBag, Bag, BatchBag;
    BatchBagConcat(ready, more);
    Shift(MapBag(m'), BatchBag(more), Bag(discarded), BatchBag(ready), Bag(remaining));
    Shift(MapBag(m), added, Bag(discarded), BatchBag(ready), Bag(remaining));
    MoveSecond(MapBag(m) + Bag(discarded), BatchBag(ready), added, Bag(remaining), multiset{});
  }

  lemma Shift<T>(a: multiset<T>, x: multiset<T>, b: multiset<T>, c: multiset<T>, d: multiset<T>)
    ensures a + b + (c + x) + d == (a + x) + b + c + d
  {
  }

  /** From what was set aside to the ledger once it is dispatched. */
  lemma LedgerTakenIn(m0: BatchMap, d0: seq<Msg>, m: BatchMap, d: seq<Msg>, ready: seq<Batch>, remaining: seq<Msg>,
                      queues: seq<Queue>, finished: seq<Msg>, added: multiset<Msg>)
    requires Pending(m, d, ready, remaining) == MapBag(m0) + Bag(d0) + added
    ensures Ledger(m, queues, d, finished) + BatchBag(ready) + Bag(remaining) ==
      Ledger(m0, queues, d0, finished) + added
  {
    hide MapBag, Bag, BatchBag, HeldBatches;
    var rest := BatchBag(HeldBatches(queues)) + Bag(finished);
    Around(MapBag(m), BatchBag(HeldBatches(queues)), Bag(d), Bag(finished), BatchBag(ready), Bag(remaining));
    Around(MapBag(m0), BatchBag(HeldBatches(queues)), Bag(d0), Bag(finished), added, multiset{});
  }

  lemma LedgerSentAll(m: BatchMap, queues: seq<Queue>, discarded: seq<Msg>, finished: seq<Msg>, sent: seq<Dispatch>,
                      ready: seq<Batch>, remaining: seq<Msg>)
    requires InRange(sent, |queues|) && BatchBag(Batches(sent)) == BatchBag(ready) + Bag(remaining)
    ensures Ledger(m, EnqueueAll(queues, sent), discarded, finished) ==
            Ledger(m, queues, discarded, finished) + BatchBag(ready) + Bag(remaining)
  {
    hide Ledger, Bag, BatchBag, EnqueueAll;
    LedgerSent(m, queues, discarded, finished, sent);
    var l := Ledger(m, queues, discarded, finished);
    assert l + (BatchBag(ready) + Bag(remaining)) == l + BatchBag(ready) + Bag(remaining);
  }

  lemma Around<T>(m: multiset<T>, q: multiset<T>, d: multiset<T>, f: multiset<T>, x: multiset<T>, y: multiset<T>)
    ensures (m + q + d + f) + x + y == (m + d + x + y) + (q + f)
  {
  }

  /** Dropping batches of topics that are gone. */
  lemma LedgerDropped(m: BatchMap, m': BatchMap, queues: seq<Queue>, discarded: seq<Msg>, finished: seq<Msg>,
      a: seq<Msg>, b: seq<Msg>)
    requires MapBag(m') + Bag(a) + Bag(b) == MapBag(m)
    ensures Ledger(m', queues, discarded + a + b, finished) == Ledger(m, queues, discarded, finished)
  {
    hide MapBag, Bag, BatchBag, HeldBatches;
    LedgerDiscarded(m', queues, discarded, finished, a);
    LedgerDiscarded(m', queues, discarded + a, finished, b);
    LedgerBatched(m, m', queues, discarded, finished, Bag(a) + Bag(b), multiset{});
  }
}
