/** Writers, which build blobs incrementally. */
module CappedWriter {
  import opened BigEndian
  import opened CappedBlob
  import opened CappedChains
  import opened CappedPool
  import opened Sorting

  /** memcpy into a block at an offset. */
  function Overlay(chunk: seq<byte>, at: nat, data: seq<byte>): (r: seq<byte>)
    requires at + |data| <= |chunk|
    ensures |r| == |chunk|
  {
    chunk[..at] + data + chunk[at + |data|..]
  }

  ghost function Last(list: seq<nat>): int {
    if list == [] then NULL else list[|list| - 1]
  }

  // ------------------------------------------------------------ what writing does to data

  /** Data that fits into the last block. */
  lemma WriteFits(links: seq<int>, chunks: seq<seq<byte>>, dataSize: nat, h: Held, data: seq<byte>)
    requires HeldSound(links, chunks, dataSize, h) && h.list != [] && h.lastSize + |data| <= dataSize
    ensures var last := h.list[|h.list| - 1];
      var chunks' := chunks[last := Overlay(chunks[last], h.lastSize, data)];
      && HeldSound(links, chunks', dataSize, h.(lastSize := h.lastSize + |data|, contents := h.contents + data))
      && HeldSound(links, chunks', dataSize, h)
  {
    var n := |h.list| - 1;
    var last := h.list[n];
    NotEarlier(h.list, n);
    hide Chain, Bytes;
    var chunks' := chunks[last := Overlay(chunks[last], h.lastSize, data)];
    BytesFrame(chunks, chunks', h.list[..n]);
    assert chunks'[last][..h.lastSize + |data|] == chunks[last][..h.lastSize] + data;
    assert chunks'[last][..h.lastSize] == chunks[last][..h.lastSize];
  }

  /** Newly filled blocks linked behind a full last block. */
  lemma AppendHeld(links: seq<int>, chunks: seq<seq<byte>>, dataSize: nat, h: Held, t: Held)
    requires HeldSound(links, chunks, dataSize, h) && HeldSound(links, chunks, dataSize, t)
    requires h.list != [] && h.lastSize == dataSize && t.list != [] && Disjoint(h.list, t.list)
    ensures HeldSound(links[h.list[|h.list| - 1] := t.first], chunks, dataSize,
                      Held(h.first, h.list + t.list, t.lastSize, h.contents + t.contents))
  {
    hide Chain, Bytes, Disjoint;
    ChainAppend(links, h.first, h.list, t.first, t.list);
    var n, m := |h.list| - 1, |t.list| - 1;
    var list := h.list + t.list;
    assert list[..n + 1 + m] == h.list + t.list[..m] && list[n + 1 + m] == t.list[m];
    BytesLast(chunks, h.list);
    BytesConcat(chunks, h.list, t.list[..m]);
    assert chunks[h.list[n]][..dataSize] == chunks[h.list[n]];
    assert h.contents == Bytes(chunks, h.list);
    assert h.contents + t.contents == (h.contents + Bytes(chunks, t.list[..m])) + chunks[t.list[m]][..t.lastSize];
  }

  class Writer {
    const pool: Pool

    var firstBlock: int
    var lastBlock: int

    /** Null, or an offset into a block.  A write of nothing to an empty writer leaves an
        offset into no block. */
    var cursor: Cursor
    var numBytes: nat

    /** The block list and the bytes written so far. */
    ghost var list: seq<nat>
    ghost var contents: seq<byte>

    ghost function View(): Held
      reads this
    {
      Held(firstBlock, list, if list == [] then 0 else cursor.Offset(), contents)
    }

    ghost predicate Tidy()
      reads this
    {
      && lastBlock == Last(list)
      && (list != [] ==> cursor.At? && cursor.block == lastBlock)
      && numBytes == |contents|
    }

    ghost predicate Sound()
      reads this, pool, pool.links, pool.chunks
    {
      && pool.Valid()
      && HeldSound(pool.links[..], pool.chunks[..], pool.DataSize(), View())
      && Tidy()
    }

    constructor (p: Pool)
      requires p.Valid()
      ensures pool == p && Sound() && list == [] && contents == []
    {
      pool := p;
      firstBlock, lastBlock, cursor, numBytes := NULL, NULL, Nowhere, 0;
      list, contents := [], [];
    }

    method Init()
      requires pool.Valid()
      modifies this
      ensures Sound() && list == [] && contents == []
    {
      firstBlock, lastBlock, cursor, numBytes := NULL, NULL, Nowhere, 0;
      list, contents := [], [];
    }

    method CancelBlob()
      requires Sound() && Disjoint(list, pool.free)
      modifies this, pool`firstFree, pool`free, pool.links
      ensures Sound() && list == [] && contents == []
      ensures pool.free == Reversed(old(list)) + old(pool.free)
      ensures forall b :: 0 <= b < pool.links.Length && b !in old(list) ==> pool.links[b] == old(pool.links[b])
    {
      pool.FreeList(firstBlock, list);
      Init();
    }

    /** The blob takes over the blocks and the bytes. */
    method DraftBlob() returns (blob: Blob)
      requires Sound()
      modifies this
      ensures Sound() && list == [] && contents == []
      ensures fresh(blob) && blob.Sound(pool) && blob.View() == old(View())
    {
      hide Chain, DataSound;
      HeldEmpty(pool.links[..], pool.chunks[..], pool.DataSize());
      LastOfChain(pool.links[..], firstBlock, list);
      ChainHead(pool.links[..], firstBlock, list);
      blob := new Blob();
      if firstBlock != NULL {
        blob.pool, blob.firstBlock, blob.lastBlockSize, blob.numBytes := pool, firstBlock, cursor.Offset(), numBytes;
        blob.list, blob.contents := list, contents;
        Init();
      }
    }

    /** Appends all of data, or, if the pool has too few blocks, changes nothing that any
        later call could see. */
    method Write(data: seq<byte>) returns (ok: bool, ghost count: nat)
      requires Sound() && Disjoint(list, pool.free)
      modifies this, pool`firstFree, pool`free, pool.links, pool.chunks
      ensures Sound()
      ensures |old(list)| + count == Blocks(|old(contents)| + |data|, pool.DataSize())
      ensures ok <==> count <= |old(pool.free)|
      ensures ok ==> contents == old(contents) + data
      ensures ok ==> cursor.At? && (lastBlock == NULL <==> contents == [])
      ensures ok ==> list == old(list) + Reversed(old(pool.free)[..count]) && pool.free == old(pool.free)[count..]
      ensures !ok ==> View() == old(View()) && cursor == old(cursor)
      ensures !ok ==> pool.free == old(pool.free) && pool.links[..] == old(pool.links[..])
      ensures SameOutside(old(pool.links[..]), pool.links[..], old(list) + old(pool.free))
      ensures SameOutside(old(pool.chunks[..]), pool.chunks[..], old(list) + old(pool.free))
    {
      hide Chain, DataSound, Reversed, Disjoint;
      var blockSize := pool.DataSize();
      var rest := data;
      ghost var h, links0, chunks0 := View(), pool.links[..], pool.chunks[..];
      ghost var full := h;
      LastOfChain(links0, h.first, h.list);
      if lastBlock != NULL {
        LastUsed(links0, chunks0, blockSize, h);
        var avail := blockSize - cursor.offset;
        if |data| <= avail {
          WriteFits(links0, chunks0, blockSize, h, data);
          CountFits(links0, chunks0, blockSize, h, data);
          pool.chunks[lastBlock] := Overlay(pool.chunks[lastBlock], cursor.offset, data);
          cursor := At(lastBlock, cursor.offset + |data|);
          numBytes := numBytes + |data|;
          contents := contents + data;
          NoneTaken(pool.free, list);
          NullWhenEmpty(pool.links[..], pool.chunks[..], blockSize, View());
          return true, 0;
        }
        WriteFits(links0, chunks0, blockSize, h, data[..avail]);
        full := h.(lastSize := blockSize, contents := h.contents + data[..avail]);
        pool.chunks[lastBlock] := Overlay(pool.chunks[lastBlock], cursor.offset, data[..avail]);
        rest := data[avail..];
        assert data == data[..avail] + rest;
      }
      CountMore(pool.links[..], pool.chunks[..], blockSize, full, rest);
      count := Blocks(|rest|, blockSize);
      assert full.contents + rest == h.contents + data;
      assert |full.contents| + |rest| == |h.contents| + |data|;
      ok := Extend(rest, full);
      if ok {
        numBytes := numBytes + |data|;
        contents := contents + data;
        NullWhenEmpty(pool.links[..], pool.chunks[..], blockSize, View());
      }
    }

    /** The part of Write that needs new blocks; full is the list so far with its last
        block filled up. */
    method Extend(rest: seq<byte>, ghost full: Held) returns (ok: bool)
      requires Sound() && Disjoint(list, pool.free)
      requires HeldSound(pool.links[..], pool.chunks[..], pool.DataSize(), full)
      requires full.first == firstBlock && full.list == list
      requires list != [] ==> full.lastSize == pool.DataSize() && rest != []
      modifies `firstBlock, `lastBlock, `cursor, `list, pool`firstFree, pool`free, pool.links, pool.chunks
      ensures pool.Valid()
      ensures ok <==> Blocks(|rest|, pool.DataSize()) <= |old(pool.free)|
      ensures ok ==>
        var n := Blocks(|rest|, pool.DataSize());
        && list == old(list) + Reversed(old(pool.free)[..n]) && pool.free == old(pool.free)[n..]
        && HeldSound(pool.links[..], pool.chunks[..], pool.DataSize(), View().(contents := full.contents + rest))
        && lastBlock == Last(list) && cursor.At? && cursor.block == lastBlock
      ensures !ok ==> View() == old(View()) && cursor == old(cursor) && lastBlock == old(lastBlock)
      ensures !ok ==> pool.free == old(pool.free)
      ensures !ok ==> pool.links[..] == old(pool.links[..]) && pool.chunks[..] == old(pool.chunks[..])
      ensures SameOutside(old(pool.links[..]), pool.links[..], old(list) + old(pool.free))
      ensures SameOutside(old(pool.chunks[..]), pool.chunks[..], old(list) + old(pool.free))
    {
      hide Chain, DataSound, ChunksSized, Reversed, Disjoint;
      var blockSize := pool.DataSize();
      var count := (|rest| + blockSize - 1) / blockSize;
      ghost var free0, chunks0, list0 := pool.free, pool.chunks[..], list;
      ghost var taken;
      var block;
      LastOfChain(pool.links[..], firstBlock, list);
      ChainHead(pool.links[..], firstBlock, list);
      label before:
      ok, block, taken := pool.AllocList(count);
      if !ok {
        return;
      }
      ghost var links1 := pool.links[..];
      assert forall b :: b in list ==> b !in free0 by { DisjointElements(list, free0); }
      TakenElements(free0, count, list);
      HeldFrame(old@before(pool.links[..]), chunks0, links1, chunks0, blockSize, full);
      if lastBlock != NULL {
        pool.links[lastBlock] := block;
      } else {
        firstBlock := block;
      }
      ghost var links2 := pool.links[..];
      assert links2 == if list0 == [] then links1 else links1[list0[|list0| - 1] := block];
      LinkedUp(links1, links2, list0, free0, count, block, pool.firstFree);
      var size;
      lastBlock, size := Fill(block, taken, rest);
      cursor := At(lastBlock, size);
      list := list + taken;
      Joined(links1, links2, chunks0, pool.chunks[..], blockSize, full, Held(block, taken, size, rest));
      assert View().(contents := full.contents + rest) ==
        Held(if full.list == [] then block else full.first, full.list + taken, size, full.contents + rest);
    }

    /** Copies data into newly allocated blocks. */
    method Fill(first: int, ghost taken: seq<nat>, data: seq<byte>) returns (block: int, size: nat)
      requires pool.Valid() && Chain(pool.links[..], first, taken)
      requires |taken| == Blocks(|data|, pool.DataSize())
      modifies pool.chunks
      ensures ChunksSized(pool.chunks[..], pool.DataSize())
      ensures SameOutside(old(pool.chunks[..]), pool.chunks[..], taken)
      ensures HeldSound(pool.links[..], pool.chunks[..], pool.DataSize(), Held(first, taken, size, data))
      ensures block == Last(taken) && (taken == [] ==> size == 0)
    {
      hide Chain, DataSound, Bytes, ChunksSized, Filling;
      var blockSize := pool.DataSize();
      var rest := data;
      block := first;
      ghost var k: nat := 0;
      FillStart(pool.links[..], pool.chunks[..], blockSize, taken, first, data);
      while |rest| > blockSize
        invariant Filling(pool.links[..], pool.chunks[..], blockSize, taken, k, block, data, rest)
        invariant SameOutside(old(pool.chunks[..]), pool.chunks[..], taken)
        decreases |rest|
      {
        FillStep(pool.links[..], pool.chunks[..], blockSize, taken, k, block, data, rest);
        pool.chunks[block] := rest[..blockSize];
        rest := rest[blockSize..];
        block := pool.links[block];
        k := k + 1;
      }
      FillLast(pool.links[..], pool.chunks[..], blockSize, taken, k, first, block, data, rest);
      if block != NULL {
        pool.chunks[block] := Overlay(pool.chunks[block], 0, rest);
      }
      size := |rest|;
    }
  }

  /** The first k blocks are filled, and rest is what remains to be copied. */
  ghost predicate Filling(links: seq<int>, chunks: seq<seq<byte>>, dataSize: nat, taken: seq<nat>, k: nat, block: int,
                          data: seq<byte>, rest: seq<byte>)
  {
    && dataSize > 0 && ChunksSized(chunks, dataSize) && InStore(taken, |chunks|)
    && k <= |taken| && |taken| - k == Blocks(|rest|, dataSize)
    && Chain(links, block, taken[k..])
    && Bytes(chunks, taken[..k]) + rest == data
    && (data != [] ==> rest != [])
  }

  lemma FillStart(links: seq<int>, chunks: seq<seq<byte>>, dataSize: nat, taken: seq<nat>, first: int, data: seq<byte>)
    requires dataSize > 0 && ChunksSized(chunks, dataSize) && |links| == |chunks|
    requires Chain(links, first, taken) && |taken| == Blocks(|data|, dataSize)
    ensures NoDuplicates(taken) && Filling(links, chunks, dataSize, taken, 0, first, data, data)
  {
  }

  lemma FillStep(links: seq<int>, chunks: seq<seq<byte>>, dataSize: nat, taken: seq<nat>, k: nat, block: int,
                 data: seq<byte>, rest: seq<byte>)
    requires Filling(links, chunks, dataSize, taken, k, block, data, rest) && |rest| > dataSize
    requires NoDuplicates(taken) && |links| == |chunks|
    ensures 0 <= block < |links| && block in taken
    ensures Filling(links, chunks[block := rest[..dataSize]], dataSize, taken, k + 1, links[block], data,
      rest[dataSize..])
  {
    BlocksStep(|rest|, dataSize);
    BlocksPositive(|rest| - dataSize, dataSize);
    ChainHead(links, block, taken[k..]);
    ChainTail(links, block, taken[k..]);
    hide Chain, Bytes;
    assert taken[k..][1..] == taken[k + 1..] && block == taken[k];
    NotEarlier(taken, k);
    var chunks' := chunks[block := rest[..dataSize]];
    BytesFrame(chunks, chunks', taken[..k]);
    BytesLast(chunks', taken[..k + 1]);
    assert taken[..k + 1][..k] == taken[..k];
    assert rest == rest[..dataSize] + rest[dataSize..];
    assert Bytes(chunks', taken[..k + 1]) + rest[dataSize..] ==
      Bytes(chunks, taken[..k]) + (rest[..dataSize] + rest[dataSize..]);
  }

  lemma BlocksPositive(n: nat, dataSize: nat)
    requires dataSize > 0
    ensures Blocks(n, dataSize) > 0 <==> n > 0
  {
  }

  lemma FillLast(links: seq<int>, chunks: seq<seq<byte>>, dataSize: nat, taken: seq<nat>, k: nat, first: int,
      block: int,
                 data: seq<byte>, rest: seq<byte>)
    requires Filling(links, chunks, dataSize, taken, k, block, data, rest) && |rest| <= dataSize
    requires |links| == |chunks| && Chain(links, first, taken)
    ensures block == Last(taken)
    ensures ChunksSized(chunks, dataSize)
    ensures block == NULL ==> HeldSound(links, chunks, dataSize, Held(first, taken, |rest|, data)) && rest == []
    ensures block != NULL ==>
      && 0 <= block < |chunks| && block in taken && |chunks[block]| == dataSize
      && var chunks' := chunks[block := Overlay(chunks[block], 0, rest)];
         ChunksSized(chunks', dataSize) && HeldSound(links, chunks', dataSize, Held(first, taken, |rest|, data))
  {
    BlocksPositive(|rest|, dataSize);
    ChainHead(links, block, taken[k..]);
    if rest == [] {
      assert data == [] && taken[..k] == taken;
      BlocksPositive(0, dataSize);
      assert |Bytes(chunks, taken)| == 0;
      BytesSize(chunks, dataSize, taken);
      assert taken == [];
    } else {
      BlocksSmall(|rest|, dataSize);
      var n := |taken| - 1;
      assert k == n && block == taken[n];
      NotEarlier(taken, n);
      hide Chain, Bytes;
      var chunks' := chunks[block := Overlay(chunks[block], 0, rest)];
      BytesFrame(chunks, chunks', taken[..n]);
      assert chunks'[block][..|rest|] == rest;
    }
  }

  lemma DisjointElements(a: seq<nat>, b: seq<nat>)
    requires Disjoint(a, b)
    ensures forall x :: x in a ==> x !in b
  {
  }

  /** Linking the new blocks behind the old list disturbs neither them nor the free list. */
  lemma LinkedUp(links1: seq<int>, links2: seq<int>, list: seq<nat>, free: seq<nat>, count: nat, block: int,
      firstFree: int)
    requires count <= |free| && Disjoint(list, free) && (list != [] ==> list[|list| - 1] < |links1|)
    requires Chain(links1, block, Reversed(free[..count])) && Chain(links1, firstFree, free[count..])
    requires links2 == if list == [] then links1 else links1[list[|list| - 1] := block]
    ensures Chain(links2, block, Reversed(free[..count])) && Chain(links2, firstFree, free[count..])
    ensures Disjoint(list, Reversed(free[..count]))
  {
    TakenElements(free, count, list);
    assert list != [] ==> list[|list| - 1] in list;
    ChainFrame(links1, links2, block, Reversed(free[..count]));
    ChainFrame(links1, links2, firstFree, free[count..]);
  }

  lemma TakenElements(free: seq<nat>, count: nat, list: seq<nat>)
    requires count <= |free| && Disjoint(list, free)
    ensures forall b :: b in Reversed(free[..count]) ==> b in free && b !in list
    ensures forall b :: b in free[count..] ==> b in free && b !in list
  {
  }

  /** The list so far and the new blocks together. */
  lemma Joined(links1: seq<int>, links2: seq<int>, chunks1: seq<seq<byte>>, chunks2: seq<seq<byte>>, dataSize: nat,
      full: Held, t: Held)
    requires HeldSound(links1, chunks1, dataSize, full) && Chain(links1, t.first, t.list) &&
      DataSound(chunks2, dataSize, t)
    requires SameOutside(chunks1, chunks2, t.list) && Disjoint(full.list, t.list)
    requires full.list != [] ==> full.lastSize == dataSize && t.list != []
    requires links2 == if full.list == [] then links1 else links1[full.list[|full.list| - 1] := t.first]
    ensures HeldSound(links2, chunks2, dataSize,
                      Held(if full.list == [] then t.first else full.first, full.list + t.list, t.lastSize,
                           full.contents + t.contents))
  {
    hide Chain;
    HeldFrame(links1, chunks1, links1, chunks2, dataSize, full);
    if full.list == [] {
      assert full.list + t.list == t.list && full.contents + t.contents == t.contents;
    } else {
      AppendHeld(links1, chunks2, dataSize, full, t);
    }
  }

  lemma LastOfChain(links: seq<int>, first: int, list: seq<nat>)
    requires Chain(links, first, list)
    ensures Last(list) == NULL <==> list == []
    ensures list != [] ==> Last(list) in list && 0 <= Last(list) < |links|
  {
  }

  lemma NullWhenEmpty(links: seq<int>, chunks: seq<seq<byte>>, dataSize: nat, h: Held)
    requires HeldSound(links, chunks, dataSize, h)
    ensures Last(h.list) == NULL <==> h.contents == []
  {
  }

  lemma LastUsed(links: seq<int>, chunks: seq<seq<byte>>, dataSize: nat, h: Held)
    requires HeldSound(links, chunks, dataSize, h) && h.list != []
    ensures 0 < h.lastSize <= dataSize && |chunks[h.list[|h.list| - 1]]| == dataSize
  {
  }

  lemma NoneTaken(free: seq<nat>, list: seq<nat>)
    ensures free[0..] == free && list + Reversed(free[..0]) == list
  {
  }

  lemma CountFits(links: seq<int>, chunks: seq<seq<byte>>, dataSize: nat, h: Held, data: seq<byte>)
    requires HeldSound(links, chunks, dataSize, h) && ChunksSized(chunks, dataSize)
    requires h.list != [] && h.lastSize + |data| <= dataSize
    ensures Blocks(|h.contents| + |data|, dataSize) == |h.list|
  {
    HeldBlocks(links, chunks, dataSize, h);
    BlocksMore(h.lastSize + |data|, dataSize, |h.list| - 1);
    BlocksSmall(h.lastSize + |data|, dataSize);
  }

  lemma CountMore(links: seq<int>, chunks: seq<seq<byte>>, dataSize: nat, full: Held, rest: seq<byte>)
    requires HeldSound(links, chunks, dataSize, full) && ChunksSized(chunks, dataSize) && dataSize > 0
    requires full.list != [] ==> full.lastSize == dataSize
    ensures Blocks(|full.contents| + |rest|, dataSize) == |full.list| + Blocks(|rest|, dataSize)
  {
    HeldBlocks(links, chunks, dataSize, full);
    if full.list != [] {
      assert |full.contents| == |full.list| * dataSize;
      BlocksMore(|rest|, dataSize, |full.list|);
    }
  }
}
