/** Blobs, which own their blocks. */
module CappedBlob {
  import opened BigEndian
  import opened CappedChains
  import opened CappedPool

  class Blob {
    var pool: Pool?
    var firstBlock: int
    var lastBlockSize: nat
    var numBytes: nat

    /** The block list and the bytes held. */
    ghost var list: seq<nat>
    ghost var contents: seq<byte>

    ghost function View(): Held
      reads this
    {
      Held(firstBlock, list, lastBlockSize, contents)
    }

    ghost predicate Tidy(p: Pool)
      reads this
    {
      && numBytes == |contents|
      && (pool == null || pool == p)
      && (pool == null <==> list == [])
    }

    /** A blob that is empty, or drafted from a writer of the given pool. */
    ghost predicate Sound(p: Pool)
      reads this, p, p.links, p.chunks
    {
      && p.Valid()
      && HeldSound(p.links[..], p.chunks[..], p.DataSize(), View())
      && Tidy(p)
    }

    constructor ()
      ensures pool == null && View() == EMPTY && numBytes == 0
    {
      pool, firstBlock, lastBlockSize, numBytes := null, NULL, 0, 0;
      list, contents := [], [];
    }

    method Swap(that: Blob)
      modifies this, that
      ensures View() == old(that.View()) && that.View() == old(View())
      ensures pool == old(that.pool) && that.pool == old(pool)
      ensures numBytes == old(that.numBytes) && that.numBytes == old(numBytes)
    {
      pool, that.pool := that.pool, pool;
      firstBlock, that.firstBlock := that.firstBlock, firstBlock;
      lastBlockSize, that.lastBlockSize := that.lastBlockSize, lastBlockSize;
      numBytes, that.numBytes := that.numBytes, numBytes;
      list, that.list := that.list, list;
      contents, that.contents := that.contents, contents;
    }

    /** What the destructor does. */
    method Release(ghost p: Pool)
      requires Sound(p) && Disjoint(list, p.free)
      modifies p`firstFree, p`free, p.links
      ensures p.Valid() && p.free == Reversed(list) + old(p.free)
      ensures SameOutside(old(p.links[..]), p.links[..], list)
    {
      if pool != null {
        pool.FreeList(firstBlock, list);
      } else {
        assert Reversed(list) + p.free == p.free;
      }
    }

    method Reset(ghost p: Pool)
      requires Sound(p) && Disjoint(list, p.free)
      modifies this, p`firstFree, p`free, p.links
      ensures View() == EMPTY && Tidy(p)
      ensures p.Valid() && p.free == Reversed(old(list)) + old(p.free)
      ensures SameOutside(old(p.links[..]), p.links[..], old(list))
    {
      var temp := new Blob();
      temp.Swap(this);
      temp.Release(p);
    }

    /** Move assignment: the old contents are released and that blob is left empty, even
        if it is this one. */
    method MoveFrom(that: Blob, ghost p: Pool)
      requires Sound(p) && that.Sound(p) && Disjoint(list, p.free)
      modifies this, that, p`firstFree, p`free, p.links
      ensures View() == if this == that then EMPTY else old(that.View())
      ensures Tidy(p) && that.Tidy(p) && that.View() == EMPTY
      ensures p.Valid() && p.free == Reversed(old(list)) + old(p.free)
      ensures SameOutside(old(p.links[..]), p.links[..], old(list))
    {
      var temp := new Blob();
      temp.Swap(this);
      Swap(that);
      temp.Release(p);
    }

    /** Calls back for each block, until a call returns false.  The pieces seen, put
        together, are the blob's bytes from the start. */
    method ForEachBlock(cb: seq<byte> -> bool, ghost p: Pool) returns (all: bool, seen: seq<seq<byte>>)
      requires Sound(p)
      ensures |seen| <= |list| && forall i :: 0 <= i < |seen| ==>
        seen[i] == Piece(p.chunks[..], p.DataSize(), View(), i)
      ensures all <==> |seen| == |list| && forall i :: 0 <= i < |seen| ==> cb(seen[i])
      ensures forall i :: 0 <= i < |seen| - 1 ==> cb(seen[i])
      ensures Concat(seen) <= contents && (all ==> Concat(seen) == contents)
    {
      hide HeldSound, ChunksSized, Seen, Concat;
      seen := [];
      var block := firstBlock;
      ghost var h, links, chunks, ds := View(), p.links[..], p.chunks[..], p.DataSize();
      SeenNone(links, chunks, ds, h);
      while block != NULL
        invariant Seen(chunks, ds, h, seen, block)
        invariant forall i :: 0 <= i < |seen| ==> cb(seen[i])
        decreases |list| - |seen|
      {
        SeenMore(links, chunks, ds, h, seen, block);
        var size := if pool.links[block] != NULL then pool.DataSize() else lastBlockSize;
        var piece := pool.chunks[block][..size];
        seen := seen + [piece];
        SeenSoFar(chunks, ds, h, seen, pool.links[block]);
        if !cb(piece) {
          assert seen[|seen| - 1] == piece;
          return false, seen;
        }
        block := pool.links[block];
      }
      SeenAll(links, chunks, ds, h, seen);
      SeenSoFar(chunks, ds, h, seen, block);
      all := true;
    }
  }

  /** The pieces before some block of the list. */
  ghost predicate Seen(chunks: seq<seq<byte>>, dataSize: nat, h: Held, seen: seq<seq<byte>>, block: int) {
    && Readable(chunks, dataSize, h)
    && |seen| <= |h.list| && block == After(h.list, |seen| - 1)
    && (forall i :: 0 <= i < |seen| ==> seen[i] == Piece(chunks, dataSize, h, i))
    && Concat(seen) + From(chunks, dataSize, h, |seen|) == h.contents
  }

  lemma SeenNone(links: seq<int>, chunks: seq<seq<byte>>, dataSize: nat, h: Held)
    requires HeldSound(links, chunks, dataSize, h) && ChunksSized(chunks, dataSize)
    ensures Seen(chunks, dataSize, h, [], h.first)
  {
    FromStart(chunks, dataSize, h);
  }

  lemma SeenSoFar(chunks: seq<seq<byte>>, dataSize: nat, h: Held, seen: seq<seq<byte>>, block: int)
    requires Seen(chunks, dataSize, h, seen, block)
    ensures Readable(chunks, dataSize, h) && |seen| <= |h.list| && Concat(seen) <= h.contents
    ensures forall i :: 0 <= i < |seen| ==> seen[i] == Piece(chunks, dataSize, h, i)
  {
  }

  lemma SeenMore(links: seq<int>, chunks: seq<seq<byte>>, dataSize: nat, h: Held, seen: seq<seq<byte>>, block: int)
    requires HeldSound(links, chunks, dataSize, h) && ChunksSized(chunks, dataSize)
    requires Seen(chunks, dataSize, h, seen, block) && block != NULL
    ensures |seen| < |h.list| && 0 <= block < |links| && |chunks[block]| == dataSize
    ensures var size := if links[block] != NULL then dataSize else h.lastSize;
      size <= dataSize && Seen(chunks, dataSize, h, seen + [chunks[block][..size]], links[block])
  {
    hide Chain, DataSound, ChunksSized, From, Concat;
    var k := |seen|;
    BlockAt(links, chunks, dataSize, h, k);
    ConcatMore(seen, Piece(chunks, dataSize, h, k), From(chunks, dataSize, h, k + 1));
  }

  lemma SeenAll(links: seq<int>, chunks: seq<seq<byte>>, dataSize: nat, h: Held, seen: seq<seq<byte>>)
    requires HeldSound(links, chunks, dataSize, h) && ChunksSized(chunks, dataSize)
    requires Seen(chunks, dataSize, h, seen, NULL)
    ensures |seen| == |h.list| && Concat(seen) == h.contents
  {
  }

  ghost function Concat(pieces: seq<seq<byte>>): seq<byte> {
    if pieces == [] then [] else Concat(pieces[..|pieces| - 1]) + pieces[|pieces| - 1]
  }

  lemma ConcatMore(pieces: seq<seq<byte>>, piece: seq<byte>, rest: seq<byte>)
    ensures Concat(pieces) + (piece + rest) == Concat(pieces + [piece]) + rest
  {
  }

  /** Bytes in use in the k-th block. */
  ghost function Used(dataSize: nat, h: Held, k: nat): nat {
    if k + 1 < |h.list| then dataSize else h.lastSize
  }

  ghost predicate Readable(chunks: seq<seq<byte>>, dataSize: nat, h: Held) {
    DataSound(chunks, dataSize, h) && ChunksSized(chunks, dataSize)
  }

  /** The data in the k-th block. */
  ghost function Piece(chunks: seq<seq<byte>>, dataSize: nat, h: Held, k: nat): (piece: seq<byte>)
    requires Readable(chunks, dataSize, h) && k < |h.list|
    ensures |piece| == Used(dataSize, h, k)
  {
    chunks[h.list[k]][..Used(dataSize, h, k)]
  }

  /** The data from the k-th block on. */
  ghost function From(chunks: seq<seq<byte>>, dataSize: nat, h: Held, k: nat): seq<byte>
    requires Readable(chunks, dataSize, h) && k <= |h.list|
    decreases |h.list| - k
  {
    if k == |h.list| then [] else Piece(chunks, dataSize, h, k) + From(chunks, dataSize, h, k + 1)
  }

  lemma {:induction false} FromRest(chunks: seq<seq<byte>>, dataSize: nat, h: Held, k: nat)
    requires Readable(chunks, dataSize, h) && k < |h.list|
    ensures Bytes(chunks, h.list[..k]) + From(chunks, dataSize, h, k) == h.contents
    decreases |h.list| - k
  {
    if k < |h.list| - 1 {
      FromRest(chunks, dataSize, h, k + 1);
      assert h.list[..k + 1][..k] == h.list[..k];
      assert Piece(chunks, dataSize, h, k) == chunks[h.list[k]];
    } else {
      assert From(chunks, dataSize, h, k + 1) == [];
    }
  }

  lemma FromStart(chunks: seq<seq<byte>>, dataSize: nat, h: Held)
    requires Readable(chunks, dataSize, h)
    ensures From(chunks, dataSize, h, 0) == h.contents
  {
    if h.list != [] {
      FromRest(chunks, dataSize, h, 0);
      assert Bytes(chunks, h.list[..0]) == [];
    }
  }

  /** Standing at the k-th block. */
  lemma BlockAt(links: seq<int>, chunks: seq<seq<byte>>, dataSize: nat, h: Held, k: nat)
    requires HeldSound(links, chunks, dataSize, h) && ChunksSized(chunks, dataSize) && k <= |h.list|
    ensures k == 0 ==> h.first == After(h.list, -1)
    ensures k == |h.list| ==> From(chunks, dataSize, h, k) == []
    ensures k < |h.list| ==>
      && h.list[k] < |links| && links[h.list[k]] == After(h.list, k)
      && (links[h.list[k]] == NULL <==> k == |h.list| - 1)
      && 0 < Used(dataSize, h, k) <= dataSize == |chunks[h.list[k]]|
      && From(chunks, dataSize, h, k) == Piece(chunks, dataSize, h, k) + From(chunks, dataSize, h, k + 1)
  {
  }
}
