/** Readers, which make one forward pass over a blob. */
module CappedReader {
  import opened BigEndian
  import opened CappedBlob
  import opened CappedChains
  import opened CappedPool

  /** One Read, or one Skip, of some size. */
  datatype ReadOp = Read(size: nat) | Skip(size: nat)

  datatype Outcome = Thrown | Got(data: seq<byte>)

  function Min(a: nat, b: nat): nat {
    if a < b then a else b
  }

  /** What a sequence of calls must give, from the bytes still ahead. */
  function Expected(rest: seq<byte>, ops: seq<ReadOp>): seq<Outcome>
    decreases |ops|
  {
    if ops == [] then []
    else
      var n := Min(ops[0].size, |rest|);
      var now := if ops[0].size > |rest| then Thrown else if ops[0].Skip? then Got([]) else Got(rest[..n]);
      [now] + Expected(rest[n..], ops[1..])
  }

  /** The bytes ahead of a position: block k of the list, at some offset. */
  ghost predicate Ahead(chunks: seq<seq<byte>>, dataSize: nat, h: Held, k: nat, offset: nat, rest: seq<byte>) {
    && Readable(chunks, dataSize, h)
    && k <= |h.list|
    && (k == |h.list| ==> rest == [] && offset == 0)
    && (k < |h.list| ==>
        && offset < Used(dataSize, h, k)
        && rest == Piece(chunks, dataSize, h, k)[offset..] + From(chunks, dataSize, h, k + 1))
  }

  /** The reader's fields for the position with the bytes rest ahead. */
  ghost predicate Placed(chunks: seq<seq<byte>>, dataSize: nat, h: Held, block: int, cursor: Cursor, remaining: nat,
                         k: nat, rest: seq<byte>)
  {
    && Ahead(chunks, dataSize, h, k, cursor.Offset(), rest)
    && block == After(h.list, k - 1)
    && (block == NULL <==> k == |h.list|)
    && cursor == (if block == NULL then Nowhere else At(block, cursor.Offset()))
    && remaining == |rest| <= |h.contents|
    && rest == h.contents[|h.contents| - remaining..]
  }

  class Reader {
    const blob: Blob
    var block: int
    var cursor: Cursor
    var bytesRemaining: nat

    /** The current block's place in the blob's list, and the bytes ahead. */
    ghost var index: nat
    ghost var rest: seq<byte>

    ghost predicate Valid(p: Pool)
      reads this, blob, p, p.links, p.chunks
    {
      blob.Sound(p) && Placed(p.chunks[..], p.DataSize(), blob.View(), block, cursor, bytesRemaining, index, rest)
    }

    constructor (b: Blob, ghost p: Pool)
      requires b.Sound(p)
      ensures blob == b && Valid(p) && rest == b.contents
    {
      blob := b;
      block := b.firstBlock;
      cursor := if b.firstBlock != NULL then At(b.firstBlock, 0) else Nowhere;
      bytesRemaining := b.numBytes;
      index, rest := 0, b.contents;
      new;
      FromStart(p.chunks[..], p.DataSize(), b.View());
      BlockAt(p.links[..], p.chunks[..], p.DataSize(), b.View(), 0);
    }

    /** The cursor is null exactly when no bytes remain. */
    lemma NullAtEnd(p: Pool)
      requires Valid(p)
      ensures cursor.Nowhere? <==> rest == []
      ensures blob.numBytes == 0 ==> rest == []
      ensures index <= |blob.list|
    {
    }

    /** operator bool. */
    method More(ghost p: Pool) returns (more: bool)
      requires Valid(p)
      ensures more <==> bytesRemaining > 0
    {
      NullAtEnd(p);
      more := cursor.At?;
    }

    method GetBytesConsumed(ghost p: Pool) returns (n: nat)
      requires Valid(p)
      ensures n <= |blob.contents| && blob.contents[n..] == rest
    {
      n := blob.numBytes - bytesRemaining;
    }

    /** Copies the next bytes, or passes over them; asking for more than there are
        consumes what is left and throws. */
    method Advance(size: nat, copy: bool, ghost p: Pool) returns (ok: bool, data: seq<byte>)
      requires Valid(p)
      modifies this
      ensures Valid(p)
      ensures ok <==> size <= |old(rest)|
      ensures rest == old(rest)[Min(size, |old(rest)|)..]
      ensures data == if copy then old(rest)[..Min(size, |old(rest)|)] else []
    {
      hide Valid;
      ok, data := true, [];
      assert rest[0..] == rest;
      if size == 0 {
        assert Min(size, |rest|) == 0;
        return;
      }
      NullAtEnd(p);
      if blob.numBytes == 0 {
        assert Min(size, |rest|) == 0;
        return false, [];
      }
      var todo: nat := size;
      ghost var done: nat := 0;
      while todo > 0
        invariant Valid(p) && done <= |old(rest)| && todo + done == size
        invariant rest == old(rest)[done..]
        invariant data == if copy then old(rest)[..done] else []
        decreases todo
      {
        NullAtEnd(p);
        if cursor.Nowhere? {
          assert |old(rest)| == done == Min(size, |old(rest)|);
          return false, data;
        }
        var got, piece := Step(todo, p);
        data := if copy then data + piece else data;
        done := done + got;
        todo := todo - got;
      }
      assert done == Min(size, |old(rest)|);
    }

    /** One turn of the loop in Advance: some bytes of the current block. */
    method Step(todo: nat, ghost p: Pool) returns (got: nat, piece: seq<byte>)
      requires Valid(p) && cursor.At? && todo > 0
      modifies this
      ensures Valid(p) && 0 < got <= todo && got <= |old(rest)|
      ensures piece == old(rest)[..got] && rest == old(rest)[got..]
    {
      hide HeldSound, ChunksSized, Placed;
      ghost var links, chunks, ds, h := p.links[..], p.chunks[..], p.DataSize(), blob.View();
      Here(links, chunks, ds, h, block, cursor, bytesRemaining, index, rest);
      var pool := blob.pool;
      var used := if pool.links[block] != NULL then pool.DataSize() else blob.lastBlockSize;
      var avail := used - cursor.offset;
      if todo < avail {
        StayIn(links, chunks, ds, h, block, cursor, bytesRemaining, index, rest, todo);
        piece := pool.chunks[block][cursor.offset..cursor.offset + todo];
        got := todo;
        cursor := At(block, cursor.offset + todo);
      } else {
        MoveOn(links, chunks, ds, h, block, cursor, bytesRemaining, index, rest);
        piece := pool.chunks[block][cursor.offset..used];
        got := avail;
        block := pool.links[block];
        cursor := if block != NULL then At(block, 0) else Nowhere;
        index := index + 1;
      }
      bytesRemaining := bytesRemaining - got;
      rest := rest[got..];
    }

    /** Any sequence of calls yields the successive slices. */
    method ReadAll(ops: seq<ReadOp>, ghost p: Pool) returns (outcomes: seq<Outcome>)
      requires Valid(p)
      modifies this
      ensures Valid(p) && outcomes == Expected(old(rest), ops)
    {
      hide Valid, Expected;
      outcomes := [];
      assert ops[0..] == ops;
      for i := 0 to |ops|
        invariant Valid(p) && outcomes + Expected(rest, ops[i..]) == Expected(old(rest), ops)
      {
        ExpectedStep(rest, ops, i);
        ghost var before := outcomes;
        var ok, data := Advance(ops[i].size, ops[i].Read?, p);
        outcomes := outcomes + [if ok then Got(data) else Thrown];
        assert outcomes + Expected(rest, ops[i + 1..]) ==
          before + ([if ok then Got(data) else Thrown] + Expected(rest, ops[i + 1..]));
      }
      assert ops[|ops|..] == [];
      assert Expected(rest, []) == [] by { ExpectedNone(rest); }
    }
  }

  lemma ExpectedNone(rest: seq<byte>)
    ensures Expected(rest, []) == []
  {
  }

  lemma ExpectedStep(rest: seq<byte>, ops: seq<ReadOp>, i: nat)
    requires i < |ops|
    ensures
      var n := Min(ops[i].size, |rest|);
      var now := if ops[i].size > |rest| then Thrown else if ops[i].Skip? then Got([]) else Got(rest[..n]);
      Expected(rest, ops[i..]) == [now] + Expected(rest[n..], ops[i + 1..])
  {
  }

  lemma Here(links: seq<int>, chunks: seq<seq<byte>>, dataSize: nat, h: Held, block: int, cursor: Cursor,
      remaining: nat,
             k: nat, rest: seq<byte>)
    requires HeldSound(links, chunks, dataSize, h) && ChunksSized(chunks, dataSize) && cursor.At?
    requires Placed(chunks, dataSize, h, block, cursor, remaining, k, rest)
    ensures h.list != [] && k < |h.list| && block == h.list[k] < |links| == |chunks| && |chunks[block]| == dataSize
    ensures links[block] == After(h.list, k) && (links[block] == NULL <==> k + 1 == |h.list|)
    ensures remaining == |rest| <= |h.contents| && rest == h.contents[|h.contents| - |rest|..]
    ensures Used(dataSize, h, k) == (if links[block] != NULL then dataSize else h.lastSize) <= dataSize
    ensures cursor.offset < Used(dataSize, h, k)
  {
  }

  /** Some of the bytes left in the block. */
  lemma StayIn(links: seq<int>, chunks: seq<seq<byte>>, dataSize: nat, h: Held, block: int, cursor: Cursor,
      remaining: nat,
               k: nat, rest: seq<byte>, n: nat)
    requires HeldSound(links, chunks, dataSize, h) && ChunksSized(chunks, dataSize) && cursor.At?
    requires Placed(chunks, dataSize, h, block, cursor, remaining, k, rest)
    requires cursor.offset + n < Used(dataSize, h, k)
    ensures 0 <= block < |chunks| && cursor.offset + n <= |chunks[block]| && n <= remaining
    ensures rest[..n] == chunks[block][cursor.offset..cursor.offset + n]
    ensures Placed(chunks, dataSize, h, block, At(block, cursor.offset + n), remaining - n, k, rest[n..])
  {
    hide HeldSound, ChunksSized, Ahead;
    Here(links, chunks, dataSize, h, block, cursor, remaining, k, rest);
    PieceStep(chunks, dataSize, h, k, cursor.offset, rest, n);
    SuffixMore(h.contents, rest, n);
  }

  /** All the bytes left in the block. */
  lemma MoveOn(links: seq<int>, chunks: seq<seq<byte>>, dataSize: nat, h: Held, block: int, cursor: Cursor,
      remaining: nat,
               k: nat, rest: seq<byte>)
    requires HeldSound(links, chunks, dataSize, h) && ChunksSized(chunks, dataSize) && cursor.At?
    requires Placed(chunks, dataSize, h, block, cursor, remaining, k, rest)
    ensures 0 <= block < |links|
    ensures
      var used := Used(dataSize, h, k);
      var n, next := used - cursor.offset, links[block];
      && 0 < n <= remaining && used <= |chunks[block]| && rest[..n] == chunks[block][cursor.offset..used]
      && Placed(chunks, dataSize, h, next, if next != NULL then At(next, 0) else Nowhere, remaining - n,
                k + 1, rest[n..])
  {
  }

  lemma SuffixMore(contents: seq<byte>, rest: seq<byte>, n: nat)
    requires n <= |rest| <= |contents| && rest == contents[|contents| - |rest|..]
    ensures rest[n..] == contents[|contents| - (|rest| - n)..]
  {
  }

  lemma PieceStep(chunks: seq<seq<byte>>, dataSize: nat, h: Held, k: nat, offset: nat, rest: seq<byte>, n: nat)
    requires Ahead(chunks, dataSize, h, k, offset, rest) && k < |h.list| && offset + n < Used(dataSize, h, k)
    ensures n < |rest| && rest[..n] == chunks[h.list[k]][offset..offset + n]
    ensures Ahead(chunks, dataSize, h, k, offset + n, rest[n..])
  {
  }

}
