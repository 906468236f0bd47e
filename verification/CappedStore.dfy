/** A pool with all its writers and blobs, against a model that has only byte strings. */
module CappedStore {
  import opened BigEndian
  import opened CappedBlob
  import opened CappedChains
  import opened CappedPool
  import opened CappedReader
  import opened CappedWriter
  import opened Sorting

  datatype Op =
    | NewWriter
    | NewBlob
    | Write(w: nat, data: seq<byte>)
    | Cancel(w: nat)
    | Draft(w: nat, b: nat)
    | Swap(b: nat, c: nat)
    | Move(b: nat, c: nat)
    | Reset(b: nat)
    | ReadBlob(b: nat, calls: seq<ReadOp>)

  datatype Reply = Done | Wrote(ok: bool) | ReadBack(outcomes: seq<Outcome>)

  // ------------------------------------------------------------------------ the model

  /** What each writer and each blob holds. */
  datatype Model = Model(writers: seq<seq<byte>>, blobs: seq<seq<byte>>)

  /** Blocks in use. */
  ghost function SumBlocks(all: seq<seq<byte>>, dataSize: nat): nat
    requires dataSize > 0
  {
    if all == [] then 0
    else SumBlocks(all[..|all| - 1], dataSize) + Blocks(|all[|all| - 1]|, dataSize)
  }

  ghost function FreeBlocks(m: Model, dataSize: nat, count: nat): int
    requires dataSize > 0
  {
    count - SumBlocks(m.writers + m.blobs, dataSize)
  }

  /** A write needs blocks only for what its last block cannot take, and fails without
      effect if the pool does not have them.  Operations on objects that do not exist do
      nothing. */
  ghost function Step(m: Model, op: Op, dataSize: nat, count: nat): (Model, Reply)
    requires dataSize > 0
  {
    match op
    case NewWriter => (m.(writers := m.writers + [[]]), Done)
    case NewBlob => (m.(blobs := m.blobs + [[]]), Done)
    case Write(w, data) =>
      if w >= |m.writers| then (m, Done)
      else
        var need := Blocks(|m.writers[w]| + |data|, dataSize) - Blocks(|m.writers[w]|, dataSize);
        if need <= FreeBlocks(m, dataSize, count) then (m.(writers := m.writers[w := m.writers[w] + data]), Wrote(true))
        else (m, Wrote(false))
    case Cancel(w) =>
      if w >= |m.writers| then (m, Done) else (m.(writers := m.writers[w := []]), Done)
    case Draft(w, b) =>
      if w >= |m.writers| || b >= |m.blobs| then (m, Done)
      else (Model(m.writers[w := []], m.blobs[b := m.writers[w]]), Done)
    case Swap(b, c) =>
      if b >= |m.blobs| || c >= |m.blobs| then (m, Done)
      else (m.(blobs := m.blobs[b := m.blobs[c]][c := m.blobs[b]]), Done)
    case Move(b, c) =>
      if b >= |m.blobs| || c >= |m.blobs| then (m, Done)
      else (m.(blobs := m.blobs[b := m.blobs[c]][c := []]), Done)
    case Reset(b) =>
      if b >= |m.blobs| then (m, Done) else (m.(blobs := m.blobs[b := []]), Done)
    case ReadBlob(b, calls) =>
      if b >= |m.blobs| then (m, Done) else (m, ReadBack(Expected(m.blobs[b], calls)))
  }

  ghost function StepAll(m: Model, ops: seq<Op>, dataSize: nat, count: nat): (Model, seq<Reply>)
    requires dataSize > 0
  {
    if ops == [] then (m, [])
    else
      var n := |ops| - 1;
      var before := StepAll(m, ops[..n], dataSize, count);
      var last := Step(before.0, ops[n], dataSize, count);
      (last.0, before.1 + [last.1])
  }

  // ------------------------------------------------------------------ who owns which block

  ghost function ListBag(hs: seq<Held>): multiset<nat> {
    if hs == [] then multiset{} else ListBag(hs[..|hs| - 1]) + multiset(hs[|hs| - 1].list)
  }

  /** Every owner's chain is sound, and the free list and the owners' lists together
      contain each block of the pool exactly once. */
  ghost predicate AllSound(links: seq<int>, chunks: seq<seq<byte>>, dataSize: nat, free: seq<nat>, hs: seq<Held>) {
    && (forall i :: 0 <= i < |hs| ==> HeldSound(links, chunks, dataSize, hs[i]))
    && multiset(free) + ListBag(hs) == multiset(Iota(|links|))
  }

  lemma {:induction false} ListBagSet(hs: seq<Held>, i: nat, h: Held)
    requires i < |hs|
    ensures ListBag(hs[i := h]) + multiset(hs[i].list) == ListBag(hs) + multiset(h.list)
  {
    var n := |hs| - 1;
    if i == n {
      assert hs[i := h][..n] == hs[..n];
    } else {
      ListBagSet(hs[..n], i, h);
      assert hs[i := h][..n] == hs[..n][i := h];
      var a, b, c := ListBag(hs[..n][i := h]), ListBag(hs[..n]), multiset(hs[n].list);
      assert (a + c) + multiset(hs[i].list) == (a + multiset(hs[i].list)) + c;
      assert (b + c) + multiset(h.list) == (b + multiset(h.list)) + c;
    }
  }

  lemma {:induction false} InListBag(hs: seq<Held>, i: nat, x: nat)
    requires i < |hs| && x in hs[i].list
    ensures x in ListBag(hs)
  {
    var n := |hs| - 1;
    if i == n {
    } else {
      InListBag(hs[..n], i, x);
    }
  }

  lemma OnceOnly(a: multiset<nat>, b: multiset<nat>, n: nat, x: nat)
    requires a + b == multiset(Iota(n)) && x in a
    ensures x !in b
  {
    OccursOnce(Iota(n), x);
    assert (a + b)[x] == a[x] + b[x];
  }

  /** No block has two owners. */
  lemma OwnersDisjoint(links: seq<int>, chunks: seq<seq<byte>>, dataSize: nat, free: seq<nat>, hs: seq<Held>, i: nat)
    requires AllSound(links, chunks, dataSize, free, hs) && i < |hs|
    ensures Disjoint(hs[i].list, free)
    ensures forall j :: 0 <= j < |hs| && j != i ==> Disjoint(hs[j].list, free) && Disjoint(hs[j].list, hs[i].list)
  {
    hide ListBag, HeldSound;
    forall j, x | 0 <= j < |hs| && x in hs[j].list ensures x !in free {
      InListBag(hs, j, x);
      OnceOnly(ListBag(hs), multiset(free), |links|, x);
    }
    ListBagSet(hs, i, EMPTY);
    var others := hs[i := EMPTY];
    assert ListBag(hs) == ListBag(others) + multiset(hs[i].list);
    forall j, x | 0 <= j < |hs| && j != i && x in hs[j].list ensures x !in hs[i].list {
      InListBag(others, j, x);
      assert multiset(free) + ListBag(hs) == ListBag(others) + (multiset(free) + multiset(hs[i].list));
      OnceOnly(ListBag(others), multiset(free) + multiset(hs[i].list), |links|, x);
    }
  }

  /** One owner exchanges blocks with the free list; the others notice nothing. */
  lemma OwnerChanged(links: seq<int>, chunks: seq<seq<byte>>, links': seq<int>, chunks': seq<seq<byte>>, dataSize: nat,
                     free: seq<nat>, free': seq<nat>, hs: seq<Held>, i: nat, h: Held)
    requires AllSound(links, chunks, dataSize, free, hs) && i < |hs|
    requires |links'| == |chunks'| && HeldSound(links', chunks', dataSize, h)
    requires SameOutside(links, links', hs[i].list + free) && SameOutside(chunks, chunks', hs[i].list + free)
    requires multiset(h.list) + multiset(free') == multiset(hs[i].list) + multiset(free)
    ensures AllSound(links', chunks', dataSize, free', hs[i := h])
  {
    hide ListBag;
    OwnersDisjoint(links, chunks, dataSize, free, hs, i);
    var hs' := hs[i := h];
    forall j | 0 <= j < |hs'| ensures HeldSound(links', chunks', dataSize, hs'[j]) {
      if j != i {
        UntouchedOwner(links, chunks, links', chunks', dataSize, hs[i].list + free, hs[j]);
      }
    }
    ListBagSet(hs, i, h);
    Rebalance(multiset(free), multiset(free'), ListBag(hs), ListBag(hs'), multiset(hs[i].list), multiset(h.list));
  }

  lemma UntouchedOwner(links: seq<int>, chunks: seq<seq<byte>>, links': seq<int>, chunks': seq<seq<byte>>,
      dataSize: nat,
                       touched: seq<nat>, h: Held)
    requires HeldSound(links, chunks, dataSize, h) && Disjoint(h.list, touched)
    requires SameOutside(links, links', touched) && SameOutside(chunks, chunks', touched)
    ensures HeldSound(links', chunks', dataSize, h)
  {
    ChainHead(links, h.first, h.list);
    HeldFrame(links, chunks, links', chunks', dataSize, h);
  }

  lemma SumCancel<T>(a: multiset<T>, b: multiset<T>, x: multiset<T>)
    requires a + x == b + x
    ensures a == b
  {
    assert a == (a + x) - x && b == (b + x) - x;
  }

  lemma Rebalance(f: multiset<nat>, f': multiset<nat>, l: multiset<nat>, l': multiset<nat>, a: multiset<nat>,
      b: multiset<nat>)
    requires l' + a == l + b && b + f' == a + f
    ensures f' + l' == f + l
  {
    assert (f' + l') + (a + b) == (l' + a) + (b + f');
    assert (f + l) + (a + b) == (l + b) + (a + f);
    SumCancel(f' + l', f + l, a + b);
  }

  /** Two owners exchange what they hold. */
  lemma OwnersSwapped(links: seq<int>, chunks: seq<seq<byte>>, dataSize: nat, free: seq<nat>, hs: seq<Held>, i: nat,
      j: nat)
    requires AllSound(links, chunks, dataSize, free, hs) && i < |hs| && j < |hs|
    ensures AllSound(links, chunks, dataSize, free, hs[i := hs[j]][j := hs[i]])
  {
    hide ListBag, HeldSound;
    ListBagSet(hs, i, hs[j]);
    ListBagSet(hs[i := hs[j]], j, hs[i]);
    SumCancel(ListBag(hs[i := hs[j]][j := hs[i]]), ListBag(hs), multiset(hs[j].list));
  }

  lemma OwnerAdded(links: seq<int>, chunks: seq<seq<byte>>, dataSize: nat, free: seq<nat>, hs: seq<Held>, n: nat)
    requires AllSound(links, chunks, dataSize, free, hs) && n <= |hs| && |links| == |chunks|
    ensures AllSound(links, chunks, dataSize, free, hs[..n] + [EMPTY] + hs[n..])
  {
    HeldEmpty(links, chunks, dataSize);
    ListBagInsert(hs, n);
  }

  lemma {:induction false} ListBagInsert(hs: seq<Held>, n: nat)
    requires n <= |hs|
    ensures ListBag(hs[..n] + [EMPTY] + hs[n..]) == ListBag(hs)
  {
    var hs' := hs[..n] + [EMPTY] + hs[n..];
    if n == |hs| {
      assert hs'[..|hs|] == hs;
    } else {
      var m := |hs| - 1;
      ListBagInsert(hs[..m], n);
      assert hs'[..|hs|] == hs[..m][..n] + [EMPTY] + hs[..m][n..];
    }
  }

  // ---------------------------------------------------------------------- counting blocks

  ghost function Contents(hs: seq<Held>): (r: seq<seq<byte>>)
    ensures |r| == |hs|
  {
    seq(|hs|, i requires 0 <= i < |hs| => hs[i].contents)
  }

  /** The pool has exactly the blocks that the contents do not need. */
  lemma FreeCount(links: seq<int>, chunks: seq<seq<byte>>, dataSize: nat, free: seq<nat>, hs: seq<Held>)
    requires AllSound(links, chunks, dataSize, free, hs) && ChunksSized(chunks, dataSize) && dataSize > 0
    ensures |free| + SumBlocks(Contents(hs), dataSize) == |links|
  {
    hide ListBag, SumBlocks, HeldSound;
    BagCount(links, chunks, dataSize, hs);
    assert |multiset(free)| == |free| && |multiset(Iota(|links|))| == |links|;
    assert |multiset(free) + ListBag(hs)| == |multiset(free)| + |ListBag(hs)|;
  }

  lemma {:induction false} BagCount(links: seq<int>, chunks: seq<seq<byte>>, dataSize: nat, hs: seq<Held>)
    requires ChunksSized(chunks, dataSize) && dataSize > 0
    requires forall i :: 0 <= i < |hs| ==> HeldSound(links, chunks, dataSize, hs[i])
    ensures |ListBag(hs)| == SumBlocks(Contents(hs), dataSize)
  {
    if hs == [] {
    } else {
      hide HeldSound;
      var n := |hs| - 1;
      BagCount(links, chunks, dataSize, hs[..n]);
      HeldBlocks(links, chunks, dataSize, hs[n]);
      assert Contents(hs)[..n] == Contents(hs[..n]);
      assert |multiset(hs[n].list)| == |hs[n].list|;
    }
  }

  // ------------------------------------------------------------------------- the store

  class Store {
    const pool: Pool
    var writers: seq<Writer>
    var blobs: seq<Blob>

    /** What the writers and the blobs hold. */
    ghost var ws: seq<Held>
    ghost var bs: seq<Held>

    ghost function State(): Model
      reads `ws, `bs
    {
      Model(Contents(ws), Contents(bs))
    }

    ghost predicate Tidy()
      requires |ws| == |writers| && |bs| == |blobs|
      reads this, writers, blobs
    {
      && NoDuplicates(writers) && NoDuplicates(blobs)
      && (forall i :: 0 <= i < |ws| ==> writers[i].pool == pool && writers[i].Tidy() && writers[i].View() == ws[i])
      && (forall i :: 0 <= i < |bs| ==> blobs[i].Tidy(pool) && blobs[i].View() == bs[i])
    }

    ghost predicate Valid()
      reads this, writers, blobs, pool, pool.links, pool.chunks
    {
      && pool.Valid()
      && |ws| == |writers| && |bs| == |blobs| && Tidy()
      && AllSound(pool.links[..], pool.chunks[..], pool.DataSize(), pool.free, ws + bs)
    }

    constructor (blockSize: nat, blockCount: nat)
      ensures Valid() && fresh(pool) && fresh(pool.links) && fresh(pool.chunks)
      ensures State() == Model([], []) && pool.blockCount == blockCount
    {
      pool := new Pool(blockSize, blockCount);
      writers, blobs, ws, bs := [], [], [], [];
    }

    method DoNewWriter()
      requires Valid()
      modifies `writers, `ws
      ensures Valid() && |writers| == |old(writers)| + 1 && writers[..|old(writers)|] == old(writers)
      ensures fresh(writers[|old(writers)|])
      ensures State() == Model(old(State()).writers + [[]], old(State()).blobs)
    {
      hide AllSound, HeldSound, Chain, ChunksSized, Contents;
      OwnerAdded(pool.links[..], pool.chunks[..], pool.DataSize(), pool.free, ws + bs, |ws|);
      var w := new Writer(pool);
      HeldEmpty(pool.links[..], pool.chunks[..], pool.DataSize());
      assert w.View() == EMPTY;
      assert (ws + [EMPTY]) + bs == (ws + bs)[..|ws|] + [EMPTY] + (ws + bs)[|ws|..];
      ContentsMore(ws, EMPTY);
      writers, ws := writers + [w], ws + [EMPTY];
    }

    method DoWrite(w: nat, data: seq<byte>) returns (ok: bool)
      requires Valid() && w < |writers|
      modifies `ws, writers[w], pool`firstFree, pool`free, pool.links, pool.chunks
      ensures Valid()
      ensures (State(), Wrote(ok)) == Step(old(State()), Write(w, data), pool.DataSize(), pool.blockCount)
    {
      hide AllSound, HeldSound, Chain, ChunksSized, Disjoint, SumBlocks, Reversed, Blocks, Step, Contents;
      ghost var free, links, chunks, ds := pool.free, pool.links[..], pool.chunks[..], pool.DataSize();
      ghost var h := ws[w];
      OwnerSound(links, chunks, ds, free, ws + bs, w);
      HeldBlocks(links, chunks, ds, h);
      FreeCount(links, chunks, ds, free, ws + bs);
      ghost var count;
      ok, count := writers[w].Write(data);
      ghost var h' := writers[w].View();
      WroteBag(h.list, free, count, ok);
      OwnerChanged(links, chunks, pool.links[..], pool.chunks[..], ds, free, pool.free, ws + bs, w, h');
      assert (ws + bs)[w := h'] == ws[w := h'] + bs;
      WriteStep(ws, bs, w, data, h', ds, pool.blockCount, free, count, ok);
      ws := ws[w := h'];
    }

    method DoNewBlob()
      requires Valid()
      modifies `blobs, `bs
      ensures Valid() && |blobs| == |old(blobs)| + 1 && blobs[..|old(blobs)|] == old(blobs)
      ensures fresh(blobs[|old(blobs)|])
      ensures State() == Model(old(State()).writers, old(State()).blobs + [[]])
    {
      hide AllSound, HeldSound, Chain, ChunksSized, Contents;
      OwnerAdded(pool.links[..], pool.chunks[..], pool.DataSize(), pool.free, ws + bs, |ws + bs|);
      var b := new Blob();
      assert ws + (bs + [EMPTY]) == (ws + bs)[..|ws + bs|] + [EMPTY] + (ws + bs)[|ws + bs|..];
      ContentsMore(bs, EMPTY);
      blobs, bs := blobs + [b], bs + [EMPTY];
    }

    method DoCancel(w: nat)
      requires Valid() && w < |writers|
      modifies `ws, writers[w], pool`firstFree, pool`free, pool.links
      ensures Valid()
      ensures State() == Step(old(State()), Cancel(w), pool.DataSize(), pool.blockCount).0
    {
      hide AllSound, HeldSound, Chain, ChunksSized, Disjoint, Reversed, Contents, Step;
      ghost var free, links, chunks, ds := pool.free, pool.links[..], pool.chunks[..], pool.DataSize();
      OwnerSound(links, chunks, ds, free, ws + bs, w);
      HeldEmpty(links, chunks, ds);
      writers[w].CancelBlob();
      HeldEmpty(pool.links[..], chunks, ds);
      FreedOwner(links, chunks, pool.links[..], ds, free, ws + bs, w);
      assert (ws + bs)[w := EMPTY] == ws[w := EMPTY] + bs;
      CancelStep(ws, bs, w, ds, pool.blockCount);
      ws := ws[w := EMPTY];
    }

    method DoReset(b: nat)
      requires Valid() && b < |blobs|
      modifies `bs, blobs[b], pool`firstFree, pool`free, pool.links
      ensures Valid()
      ensures State() == Step(old(State()), Reset(b), pool.DataSize(), pool.blockCount).0
    {
      hide AllSound, HeldSound, Chain, ChunksSized, Disjoint, Reversed, Contents, Step;
      ghost var free, links, chunks, ds := pool.free, pool.links[..], pool.chunks[..], pool.DataSize();
      OwnerSound(links, chunks, ds, free, ws + bs, |ws| + b);
      blobs[b].Reset(pool);
      FreedOwner(links, chunks, pool.links[..], ds, free, ws + bs, |ws| + b);
      assert (ws + bs)[|ws| + b := EMPTY] == ws + bs[b := EMPTY];
      ResetStep(ws, bs, b, ds, pool.blockCount);
      bs := bs[b := EMPTY];
    }

    method DoSwap(b: nat, c: nat)
      requires Valid() && b < |blobs| && c < |blobs|
      modifies `bs, blobs[b], blobs[c]
      ensures Valid()
      ensures State() == Step(old(State()), Swap(b, c), pool.DataSize(), pool.blockCount).0
    {
      hide AllSound, HeldSound, Chain, ChunksSized, Contents, Step;
      SwappedBlobs(pool.links[..], pool.chunks[..], pool.DataSize(), pool.free, ws, bs, b, c);
      blobs[b].Swap(blobs[c]);
      SwapStep(ws, bs, b, c, pool.DataSize(), pool.blockCount);
      bs := bs[b := bs[c]][c := bs[b]];
    }

    method DoMove(b: nat, c: nat)
      requires Valid() && b < |blobs| && c < |blobs|
      modifies `bs, blobs[b], blobs[c], pool`firstFree, pool`free, pool.links
      ensures Valid()
      ensures State() == Step(old(State()), Move(b, c), pool.DataSize(), pool.blockCount).0
    {
      hide AllSound, HeldSound, Chain, ChunksSized, Disjoint, Reversed, Contents, Step, Tidy;
      ghost var free, links, chunks, ds := pool.free, pool.links[..], pool.chunks[..], pool.DataSize();
      OwnerSound(links, chunks, ds, free, ws + bs, |ws| + b);
      OwnerSound(links, chunks, ds, free, ws + bs, |ws| + c);
      MoveStep(ws, bs, b, c, ds, pool.blockCount);
      MoveObject(b, c);
      MovedBlob(links, chunks, pool.links[..], ds, free, ws, old(bs), b, c);
    }

    /** The target's old blocks go back to the pool. */
    method MoveObject(b: nat, c: nat)
      requires pool.Valid() && |ws| == |writers| && |bs| == |blobs| && Tidy() && b < |blobs| && c < |blobs|
      requires HeldSound(pool.links[..], pool.chunks[..], pool.DataSize(), bs[b])
      requires HeldSound(pool.links[..], pool.chunks[..], pool.DataSize(), bs[c]) && Disjoint(bs[b].list, pool.free)
      modifies `bs, blobs[b], blobs[c], pool`firstFree, pool`free, pool.links
      ensures pool.Valid() && bs == (if b == c then old(bs)[b := EMPTY] else old(bs)[b := old(bs)[c]][c := EMPTY])
      ensures Tidy() && pool.free == Reversed(old(bs)[b].list) + old(pool.free)
      ensures SameOutside(old(pool.links[..]), pool.links[..], old(bs)[b].list)
    {
      hide HeldSound, Chain, ChunksSized, Disjoint, Reversed;
      blobs[b].MoveFrom(blobs[c], pool);
      bs := if b == c then bs[b := EMPTY] else bs[b := bs[c]][c := EMPTY];
    }

    method DoDraft(w: nat, b: nat)
      requires Valid() && w < |writers| && b < |blobs|
      modifies `ws, `bs, writers[w], blobs[b], pool`firstFree, pool`free, pool.links
      ensures Valid()
      ensures State() == Step(old(State()), Draft(w, b), pool.DataSize(), pool.blockCount).0
    {
      hide AllSound, HeldSound, Chain, ChunksSized, Disjoint, Reversed, Contents, Step, Tidy;
      ghost var free, links, chunks, ds := pool.free, pool.links[..], pool.chunks[..], pool.DataSize();
      OwnerSound(links, chunks, ds, free, ws + bs, w);
      OwnerSound(links, chunks, ds, free, ws + bs, |ws| + b);
      DraftStep(ws, bs, w, b, ds, pool.blockCount);
      DraftObject(w, b);
      DraftedBlob(links, chunks, pool.links[..], ds, free, old(ws), old(bs), w, b);
    }

    /** The drafted blob is a temporary that is moved into its target. */
    method DraftObject(w: nat, b: nat)
      requires pool.Valid() && |ws| == |writers| && |bs| == |blobs| && Tidy() && w < |writers| && b < |blobs|
      requires HeldSound(pool.links[..], pool.chunks[..], pool.DataSize(), ws[w])
      requires HeldSound(pool.links[..], pool.chunks[..], pool.DataSize(), bs[b]) && Disjoint(bs[b].list, pool.free)
      modifies `ws, `bs, writers[w], blobs[b], pool`firstFree, pool`free, pool.links
      ensures pool.Valid() && ws == old(ws)[w := EMPTY] && bs == old(bs)[b := old(ws)[w]]
      ensures Tidy() && pool.free == Reversed(old(bs)[b].list) + old(pool.free)
      ensures SameOutside(old(pool.links[..]), pool.links[..], old(bs)[b].list)
    {
      hide HeldSound, Chain, ChunksSized, Disjoint, Reversed;
      HeldEmpty(pool.links[..], pool.chunks[..], pool.DataSize());
      var temp := writers[w].DraftBlob();
      blobs[b].MoveFrom(temp, pool);
      ws, bs := ws[w := EMPTY], bs[b := ws[w]];
    }

    method DoRead(b: nat, calls: seq<ReadOp>) returns (outcomes: seq<Outcome>)
      requires Valid() && b < |blobs|
      ensures ReadBack(outcomes) == Step(State(), ReadBlob(b, calls), pool.DataSize(), pool.blockCount).1
    {
      hide AllSound, HeldSound, Chain, ChunksSized, Expected, Reader.Valid;
      OwnerSound(pool.links[..], pool.chunks[..], pool.DataSize(), pool.free, ws + bs, |ws| + b);
      var reader := new Reader(blobs[b], pool);
      outcomes := reader.ReadAll(calls, pool);
    }

    // ---------------------------------------------------------------------- every run

    /** No object but the new ones joins the store. */
    twostate predicate Grown()
      reads this
    {
      && (forall i :: 0 <= i < |writers| ==> writers[i] in old(writers) || fresh(writers[i]))
      && (forall i :: 0 <= i < |blobs| ==> blobs[i] in old(blobs) || fresh(blobs[i]))
    }

    method Do(op: Op) returns (reply: Reply)
      requires Valid()
      modifies this, writers, blobs, pool`firstFree, pool`free, pool.links, pool.chunks
      ensures Valid() && Grown()
      ensures (State(), reply) == Step(old(State()), op, pool.DataSize(), pool.blockCount)
    {
      hide AllSound, HeldSound, Chain, ChunksSized, Tidy;
      reply := Done;
      match op {
        case NewWriter => DoNewWriter();
        case NewBlob => DoNewBlob();
        case Write(w, data) =>
          if w < |writers| {
            var ok := DoWrite(w, data);
            reply := Wrote(ok);
          }
        case Cancel(w) => if w < |writers| { DoCancel(w); }
        case Draft(w, b) => if w < |writers| && b < |blobs| { DoDraft(w, b); }
        case Swap(b, c) => if b < |blobs| && c < |blobs| { DoSwap(b, c); }
        case Move(b, c) => if b < |blobs| && c < |blobs| { DoMove(b, c); }
        case Reset(b) => if b < |blobs| { DoReset(b); }
        case ReadBlob(b, calls) =>
          if b < |blobs| {
            var outcomes := DoRead(b, calls);
            reply := ReadBack(outcomes);
          }
      }
    }

    /** Over every sequence of operations the linked blocks behave like plain byte strings,
        and no block is lost, shared or leaked on the way. */
    method Run(ops: seq<Op>) returns (replies: seq<Reply>)
      requires Valid()
      modifies this, writers, blobs, pool`firstFree, pool`free, pool.links, pool.chunks
      ensures Valid() && Grown()
      ensures (State(), replies) == StepAll(old(State()), ops, pool.DataSize(), pool.blockCount)
    {
      hide AllSound, HeldSound, Chain, ChunksSized, Tidy, Step, Contents;
      replies := [];
      for i := 0 to |ops|
        invariant Valid() && Grown()
        invariant (State(), replies) == StepAll(old(State()), ops[..i], pool.DataSize(), pool.blockCount)
      {
        assert ops[..i + 1][..i] == ops[..i];
        var reply := Do(ops[i]);
        replies := replies + [reply];
      }
      assert ops[..|ops|] == ops;
    }
  }

  lemma SwappedBlobs(links: seq<int>, chunks: seq<seq<byte>>, dataSize: nat, free: seq<nat>, ws: seq<Held>,
      bs: seq<Held>, b: nat, c: nat)
    requires AllSound(links, chunks, dataSize, free, ws + bs) && b < |bs| && c < |bs|
    ensures AllSound(links, chunks, dataSize, free, ws + bs[b := bs[c]][c := bs[b]])
  {
    hide AllSound;
    var hs, n := ws + bs, |ws|;
    OwnersSwapped(links, chunks, dataSize, free, hs, n + b, n + c);
    assert hs[n + b := hs[n + c]][n + c := hs[n + b]] == ws + bs[b := bs[c]][c := bs[b]];
  }

  lemma MovedBlob(links: seq<int>, chunks: seq<seq<byte>>, links': seq<int>, dataSize: nat, free: seq<nat>,
      ws: seq<Held>, bs: seq<Held>,
                  b: nat, c: nat)
    requires AllSound(links, chunks, dataSize, free, ws + bs) && b < |bs| && c < |bs| && |links'| == |chunks|
    requires SameOutside(links, links', bs[b].list)
    ensures AllSound(links', chunks, dataSize, Reversed(bs[b].list) + free,
                     ws + if b == c then bs[b := EMPTY] else bs[b := bs[c]][c := EMPTY])
  {
    hide AllSound, Reversed;
    var n := |ws|;
    FreedOwner(links, chunks, links', dataSize, free, ws + bs, n + b);
    assert (ws + bs)[n + b := EMPTY] == ws + bs[b := EMPTY];
    SwappedBlobs(links', chunks, dataSize, Reversed(bs[b].list) + free, ws, bs[b := EMPTY], b, c);
    if b == c {
      assert bs[b := EMPTY][b := EMPTY][b := EMPTY] == bs[b := EMPTY];
    } else {
      assert bs[b := EMPTY][b := bs[c]][c := EMPTY] == bs[b := bs[c]][c := EMPTY];
    }
  }

  lemma DraftedBlob(links: seq<int>, chunks: seq<seq<byte>>, links': seq<int>, dataSize: nat, free: seq<nat>,
      ws: seq<Held>, bs: seq<Held>,
                    w: nat, b: nat)
    requires AllSound(links, chunks, dataSize, free, ws + bs) && w < |ws| && b < |bs| && |links'| == |chunks|
    requires SameOutside(links, links', bs[b].list)
    ensures AllSound(links', chunks, dataSize, Reversed(bs[b].list) + free, ws[w := EMPTY] + bs[b := ws[w]])
  {
    hide AllSound, Reversed;
    var hs, n := ws + bs, |ws|;
    FreedOwner(links, chunks, links', dataSize, free, hs, n + b);
    OwnersSwapped(links', chunks, dataSize, Reversed(bs[b].list) + free, hs[n + b := EMPTY], n + b, w);
    assert hs[n + b := EMPTY][n + b := hs[w]][w := EMPTY] == ws[w := EMPTY] + bs[b := ws[w]];
  }

  lemma CancelStep(ws: seq<Held>, bs: seq<Held>, w: nat, dataSize: nat, count: nat)
    requires dataSize > 0 && w < |ws|
    ensures Step(Model(Contents(ws), Contents(bs)), Cancel(w), dataSize, count) ==
            (Model(Contents(ws[w := EMPTY]), Contents(bs)), Done)
  {
    assert Contents(ws[w := EMPTY]) == Contents(ws)[w := []];
  }

  lemma ResetStep(ws: seq<Held>, bs: seq<Held>, b: nat, dataSize: nat, count: nat)
    requires dataSize > 0 && b < |bs|
    ensures Step(Model(Contents(ws), Contents(bs)), Reset(b), dataSize, count) ==
            (Model(Contents(ws), Contents(bs[b := EMPTY])), Done)
  {
    assert Contents(bs[b := EMPTY]) == Contents(bs)[b := []];
  }

  lemma SwapStep(ws: seq<Held>, bs: seq<Held>, b: nat, c: nat, dataSize: nat, count: nat)
    requires dataSize > 0 && b < |bs| && c < |bs|
    ensures Step(Model(Contents(ws), Contents(bs)), Swap(b, c), dataSize, count) ==
            (Model(Contents(ws), Contents(bs[b := bs[c]][c := bs[b]])), Done)
  {
    assert Contents(bs[b := bs[c]][c := bs[b]]) == Contents(bs)[b := Contents(bs)[c]][c := Contents(bs)[b]];
  }

  lemma MoveStep(ws: seq<Held>, bs: seq<Held>, b: nat, c: nat, dataSize: nat, count: nat)
    requires dataSize > 0 && b < |bs| && c < |bs|
    ensures Step(Model(Contents(ws), Contents(bs)), Move(b, c), dataSize, count) ==
            (Model(Contents(ws), Contents(if b == c then bs[b := EMPTY] else bs[b := bs[c]][c := EMPTY])), Done)
  {
    assert Contents(if b == c then bs[b := EMPTY] else bs[b := bs[c]][c := EMPTY]) ==
      Contents(bs)[b := Contents(bs)[c]][c := []];
  }

  lemma DraftStep(ws: seq<Held>, bs: seq<Held>, w: nat, b: nat, dataSize: nat, count: nat)
    requires dataSize > 0 && w < |ws| && b < |bs|
    ensures Step(Model(Contents(ws), Contents(bs)), Draft(w, b), dataSize, count) ==
            (Model(Contents(ws[w := EMPTY]), Contents(bs[b := ws[w]])), Done)
  {
    assert Contents(ws[w := EMPTY]) == Contents(ws)[w := []];
    assert Contents(bs[b := ws[w]]) == Contents(bs)[b := Contents(ws)[w]];
  }

  /** An owner whose blocks went back to the pool. */
  lemma FreedOwner(links: seq<int>, chunks: seq<seq<byte>>, links': seq<int>, dataSize: nat, free: seq<nat>,
      hs: seq<Held>, i: nat)
    requires AllSound(links, chunks, dataSize, free, hs) && i < |hs| && |links'| == |chunks|
    requires SameOutside(links, links', hs[i].list)
    ensures AllSound(links', chunks, dataSize, Reversed(hs[i].list) + free, hs[i := EMPTY])
  {
    hide AllSound, HeldSound;
    HeldEmpty(links', chunks, dataSize);
    ReversedBag(hs[i].list);
    OwnerChanged(links, chunks, links', chunks, dataSize, free, Reversed(hs[i].list) + free, hs, i, EMPTY);
  }

  lemma ContentsMore(hs: seq<Held>, h: Held)
    ensures Contents(hs + [h]) == Contents(hs) + [h.contents]
  {
  }

  /** What the writer did is what the model does. */
  lemma WriteStep(ws: seq<Held>, bs: seq<Held>, w: nat, data: seq<byte>, h': Held, dataSize: nat, blocks: nat,
      free: seq<nat>,
                  count: nat, ok: bool)
    requires dataSize > 0 && w < |ws|
    requires |free| + SumBlocks(Contents(ws + bs), dataSize) == blocks
    requires |ws[w].list| == Blocks(|ws[w].contents|, dataSize)
    requires |ws[w].list| + count == Blocks(|ws[w].contents| + |data|, dataSize) && (ok <==> count <= |free|)
    requires h'.contents == if ok then ws[w].contents + data else ws[w].contents
    ensures Step(Model(Contents(ws), Contents(bs)), Write(w, data), dataSize, blocks) ==
            (Model(Contents(ws[w := h']), Contents(bs)), Wrote(ok))
  {
    hide SumBlocks, Blocks;
    assert Contents(ws + bs) == Contents(ws) + Contents(bs);
    assert Contents(ws[w := h']) == Contents(ws)[w := h'.contents];
    assert Contents(ws)[w := ws[w].contents] == Contents(ws);
  }

  lemma OwnerSound(links: seq<int>, chunks: seq<seq<byte>>, dataSize: nat, free: seq<nat>, hs: seq<Held>, i: nat)
    requires AllSound(links, chunks, dataSize, free, hs) && i < |hs|
    ensures HeldSound(links, chunks, dataSize, hs[i]) && Disjoint(hs[i].list, free)
  {
    OwnersDisjoint(links, chunks, dataSize, free, hs, i);
  }

  lemma WroteBag(list: seq<nat>, free: seq<nat>, n: nat, ok: bool)
    requires ok ==> n <= |free|
    ensures ok ==> multiset(list + Reversed(free[..n])) + multiset(free[n..]) == multiset(list) + multiset(free)
  {
    if ok {
      ReversedBag(free[..n]);
      assert free == free[..n] + free[n..];
    }
  }
}
