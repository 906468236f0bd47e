/** The pool of storage blocks. */
module CappedPool {
  import opened BigEndian
  import opened CappedChains
  import opened Sorting

  class Pool {
    const blockSize: nat
    const blockCount: nat

    /** The storage: for each block its next pointer and its data field. */
    const links: array<int>
    const chunks: array<seq<byte>>

    var firstFree: int

    /** The free list, in list order. */
    ghost var free: seq<nat>

    /** sizeof(void *), and the size of a block that holds only one pointer of data. */
    static const OVERHEAD: nat := 8
    static const MIN_BLOCK_SIZE: nat := 16

    function DataSize(): nat
      requires blockSize >= MIN_BLOCK_SIZE
    {
      blockSize - OVERHEAD
    }

    ghost predicate Valid()
      reads this, links, chunks
    {
      && blockSize >= MIN_BLOCK_SIZE
      && links.Length == chunks.Length == blockCount
      && ChunksSized(chunks[..], DataSize())
      && Chain(links[..], firstFree, free)
    }

    /** All blocks start out free. */
    constructor (size: nat, count: nat)
      ensures Valid() && fresh(links) && fresh(chunks)
      ensures blockSize == (if size > MIN_BLOCK_SIZE then size else MIN_BLOCK_SIZE) && blockCount == count
      ensures multiset(free) == multiset(Iota(count))
    {
      blockSize := if size > MIN_BLOCK_SIZE then size else MIN_BLOCK_SIZE;
      blockCount := count;
      links := new int[count](_ => NULL);
      chunks := new seq<byte>[count](_ =>
        seq((if size > MIN_BLOCK_SIZE then size else MIN_BLOCK_SIZE) - OVERHEAD, _ => 0));
      firstFree := NULL;
      free := [];
      new;
      for p := 0 to count
        invariant firstFree == Head(free) && free == Reversed(Iota(count)[..p])
        invariant Chain(links[..], firstFree, free)
        invariant ChunksSized(chunks[..], DataSize())
      {
        ReversedMore(Iota(count), p);
        ReversedElements(Iota(count)[..p]);
        ChainLink(links[..], firstFree, free, p);
        links[p] := firstFree;
        firstFree := p;
        free := [p] + free;
      }
      assert Iota(count)[..count] == Iota(count);
      ReversedBag(Iota(count));
    }

    /** A single block, or none if the pool is exhausted. */
    method Alloc() returns (block: int)
      requires Valid()
      modifies `firstFree, `free
      ensures Valid()
      ensures block == NULL <==> old(free) == []
      ensures block == NULL ==> free == old(free)
      ensures block != NULL ==> old(free) == [block] + free
    {
      ChainHead(links[..], firstFree, free);
      block := firstFree;
      if block == NULL {
        return;
      }
      ChainTail(links[..], firstFree, free);
      firstFree := links[firstFree];
      free := free[1..];
    }

    /** All or nothing: without enough blocks the pool ends up exactly as it was, although
        every free block is taken out and put back on the way. */
    method AllocList(count: nat) returns (ok: bool, first: int, ghost taken: seq<nat>)
      requires Valid()
      modifies `firstFree, `free, links
      ensures Valid()
      ensures ok <==> count <= |old(free)|
      ensures ok ==> taken == Reversed(old(free)[..count]) && free == old(free)[count..]
      ensures ok ==> Chain(links[..], first, taken)
      ensures !ok ==> free == old(free) && firstFree == old(firstFree) && links[..] == old(links[..])
      ensures forall b :: 0 <= b < links.Length && b !in old(free) ==> links[b] == old(links[b])
    {
      first := NULL;
      taken := [];
      for i := 0 to count
        invariant i <= |old(free)| && free == old(free)[i..] && taken == Reversed(old(free)[..i])
        invariant Chain(links[..], firstFree, free) && Chain(links[..], first, taken)
        invariant forall b :: 0 <= b < links.Length && b !in old(free) ==> links[b] == old(links[b])
      {
        ChainHead(links[..], firstFree, free);
        if firstFree == NULL {
          PutBack(old(links[..]), old(firstFree), old(free), first, taken);
          return false, NULL, [];
        }
        TakeStep(links[..], firstFree, free, first, taken, old(free), i);
        var block := firstFree;
        firstFree := links[block];
        links[block] := first;
        first := block;
        free, taken := free[1..], [block] + taken;
      }
      ok := true;
    }

    /** The failure path of AllocList. */
    method PutBack(ghost links0: seq<int>, ghost first0: int, ghost free0: seq<nat>, first: int, ghost taken: seq<nat>)
      requires Valid() && firstFree == NULL && Chain(links[..], first, taken)
      requires |links0| == links.Length && Chain(links0, first0, free0) && taken == Reversed(free0)
      requires forall b :: 0 <= b < links.Length && b !in free0 ==> links[b] == links0[b]
      modifies `firstFree, `free, links
      ensures Valid() && links[..] == links0 && firstFree == first0 && free == free0
    {
      ChainHead(links[..], firstFree, free);
      ChainHead(links[..], first, taken);
      ReversedElements(free0);
      ReversedTwice(free0);
      if first != NULL {
        DoFreeList(first, taken);
      }
      assert free == free0;
      forall b | 0 <= b < links.Length ensures links[b] == links0[b] {
        if b in free0 {
          var i :| 0 <= i < |free0| && free0[i] == b;
          assert links[..][free0[i]] == After(free0, i);
        }
      }
    }

    method Free(block: int, ghost list: seq<nat>)
      requires Valid() && (block == NULL ==> list == []) && (block != NULL ==> list == [block])
      requires block != NULL ==> 0 <= block < blockCount && block !in free
      modifies `firstFree, `free, links
      ensures Valid() && free == list + old(free)
      ensures forall b :: 0 <= b < links.Length && b !in list ==> links[b] == old(links[b])
    {
      if block != NULL {
        DoFree(block);
      }
    }

    method DoFree(block: int)
      requires Valid() && 0 <= block < blockCount && block !in free
      modifies `firstFree, `free, links
      ensures Valid() && free == [block] + old(free)
      ensures links[..] == old(links[..])[block := old(firstFree)]
    {
      ChainLink(links[..], firstFree, free, block);
      links[block] := firstFree;
      firstFree := block;
      free := [block] + free;
    }

    method FreeList(first: int, ghost list: seq<nat>)
      requires Valid() && Chain(links[..], first, list) && Disjoint(list, free)
      modifies `firstFree, `free, links
      ensures Valid() && free == Reversed(list) + old(free)
      ensures forall b :: 0 <= b < links.Length && b !in list ==> links[b] == old(links[b])
    {
      ChainHead(links[..], first, list);
      if first == NULL {
        return;
      }
      DoFreeList(first, list);
    }

    method DoFreeList(first: int, ghost list: seq<nat>)
      requires Valid() && Chain(links[..], first, list) && Disjoint(list, free) && first != NULL
      modifies `firstFree, `free, links
      ensures Valid() && free == Reversed(list) + old(free)
      ensures forall b :: 0 <= b < links.Length && b !in list ==> links[b] == old(links[b])
    {
      hide Chain, Reversed, ChunksSized;
      var rest := first;
      ghost var done: nat := 0;
      FreeStart(links[..], first, list, free);
      while rest != NULL
        invariant done <= |list| && Valid() && free == Reversed(list[..done]) + old(free)
        invariant Chain(links[..], rest, list[done..])
        invariant forall b :: 0 <= b < links.Length && b !in list ==> links[b] == old(links[b])
        decreases |list| - done
      {
        FreeStep(links[..], rest, list, done, firstFree, free, old(free));
        var block := rest;
        rest := links[block];
        DoFree(block);
        done := done + 1;
      }
      ChainHead(links[..], rest, list[done..]);
      assert list[..done] == list;
    }
  }

  lemma FreeStart(links: seq<int>, first: int, list: seq<nat>, free: seq<nat>)
    requires Chain(links, first, list)
    ensures NoDuplicates(list) && list[0..] == list && Reversed(list[..0]) + free == free
  {
  }

  /** One block moved from the list being freed to the free list. */
  lemma FreeStep(links: seq<int>, rest: int, list: seq<nat>, done: nat, firstFree: int, free: seq<nat>, free0: seq<nat>)
    requires done <= |list| && NoDuplicates(list) && Disjoint(list, free0) && rest != NULL
    requires Chain(links, rest, list[done..]) && Chain(links, firstFree, free) && free == Reversed(list[..done]) + free0
    ensures done < |list| && 0 <= rest < |links| && rest == list[done] && rest in list && rest !in free
    ensures Chain(links[rest := firstFree], links[rest], list[done + 1..])
    ensures [rest] + free == Reversed(list[..done + 1]) + free0
  {
    hide Chain, Reversed;
    ChainHead(links, rest, list[done..]);
    ChainTail(links, rest, list[done..]);
    assert list[done..][1..] == list[done + 1..];
    ReversedMore(list, done);
    assert [rest] + free == [list[done]] + Reversed(list[..done]) + free0;
    assert rest in list;
    assert rest !in free by {
      ReversedElements(list[..done]);
      NotEarlier(list, done);
    }
    ChainFrame(links, links[rest := firstFree], links[rest], list[done + 1..]);
  }

  lemma NotEarlier(list: seq<nat>, i: nat)
    requires NoDuplicates(list) && i < |list|
    ensures list[i] !in list[..i]
  {
  }

  lemma {:induction false} ReversedBag(s: seq<nat>)
    ensures multiset(Reversed(s)) == multiset(s)
  {
    if s == [] {
      assert Reversed(s) == s;
    } else {
      var n := |s| - 1;
      ReversedBag(s[..n]);
      ReversedMore(s, n);
      assert s[..n + 1] == s;
      assert s == s[..n] + [s[n]];
    }
  }

  /** One block moved from the free list to the list being allocated. */
  lemma TakeStep(links: seq<int>, firstFree: int, free: seq<nat>, first: int, taken: seq<nat>, free0: seq<nat>, i: nat)
    requires Chain(links, firstFree, free) && Chain(links, first, taken) && firstFree != NULL
    requires i <= |free0| && NoDuplicates(free0) && free == free0[i..] && taken == Reversed(free0[..i])
    ensures i < |free0| && 0 <= firstFree < |links| && firstFree == free0[i] && firstFree in free0
    ensures Chain(links[firstFree := first], links[firstFree], free[1..])
    ensures Chain(links[firstFree := first], firstFree, [firstFree] + taken)
    ensures free[1..] == free0[i + 1..] && [firstFree] + taken == Reversed(free0[..i + 1])
  {
    ChainHead(links, firstFree, free);
    ChainTail(links, firstFree, free);
    ReversedMore(free0, i);
    ReversedElements(free0[..i]);
    NotEarlier(free0, i);
    ChainLink(links, first, taken, firstFree);
    ChainFrame(links, links[firstFree := first], links[firstFree], free[1..]);
  }
}
