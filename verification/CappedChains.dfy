/** Linked lists of storage blocks.  A block pointer is the block's place in the pool's
    storage, or NULL; links[b] is block b's next pointer and chunks[b] is its data. */
module CappedChains {
  import opened Arithmetic
  import opened BigEndian
  import opened Sorting

  const NULL := -1

  ghost function Head(list: seq<nat>): int {
    if list == [] then NULL else list[0]
  }

  ghost function After(list: seq<nat>, i: int): int
    requires i >= -1
  {
    if i + 1 < |list| then list[i + 1] else NULL
  }

  /** Following the links from first visits exactly the blocks of list, each once, and
      then ends. */
  ghost predicate Chain(links: seq<int>, first: int, list: seq<nat>) {
    && NoDuplicates(list)
    && first == Head(list)
    && forall i :: 0 <= i < |list| ==> list[i] < |links| && links[list[i]] == After(list, i)
  }

  ghost predicate Disjoint(a: seq<nat>, b: seq<nat>) {
    forall x :: x in a ==> x !in b
  }

  /** The chain is determined by the links: there is one way to walk it. */
  lemma {:induction false} ChainUnique(links: seq<int>, first: int, a: seq<nat>, b: seq<nat>)
    requires Chain(links, first, a) && Chain(links, first, b)
    ensures a == b
    decreases |a|
  {
    if a != [] && b != [] {
      ChainTail(links, first, a);
      ChainTail(links, first, b);
      ChainUnique(links, links[first], a[1..], b[1..]);
      assert a == [a[0]] + a[1..] && b == [b[0]] + b[1..];
    }
  }

  lemma ChainTail(links: seq<int>, first: int, list: seq<nat>)
    requires Chain(links, first, list) && list != []
    ensures 0 <= first < |links| && Chain(links, links[first], list[1..]) && first !in list[1..]
  {
  }

  /** Link: a block put in front. */
  lemma ChainLink(links: seq<int>, first: int, list: seq<nat>, b: nat)
    requires Chain(links, first, list) && b < |links| && b !in list
    ensures Chain(links[b := first], b, [b] + list)
  {
  }

  /** Writing links outside a chain does not change it. */
  lemma ChainFrame(links: seq<int>, links': seq<int>, first: int, list: seq<nat>)
    requires Chain(links, first, list) && |links'| == |links|
    requires forall b :: b in list ==> links'[b] == links[b]
    ensures Chain(links', first, list)
  {
  }

  /** A second chain linked to the end of a first. */
  lemma ChainAppend(links: seq<int>, first: int, a: seq<nat>, second: int, b: seq<nat>)
    requires Chain(links, first, a) && Chain(links, second, b) && a != [] && Disjoint(a, b)
    ensures Chain(links[a[|a| - 1] := second], first, a + b)
  {
    var last := a[|a| - 1];
    var links', list := links[last := second], a + b;
    forall i | 0 <= i < |list| ensures list[i] < |links'| && links'[list[i]] == After(list, i) {
      if i < |a| {
        assert list[i] == a[i] && a[i] in a;
      } else {
        assert list[i] == b[i - |a|] && b[i - |a|] in b;
      }
    }
    forall i, j | 0 <= i < j < |list| ensures list[i] != list[j] {
      if i < |a| <= j { assert a[i] in a && b[j - |a|] in b; }
    }
  }

  lemma ChainHead(links: seq<int>, first: int, list: seq<nat>)
    requires Chain(links, first, list)
    ensures first == NULL <==> list == []
    ensures list != [] ==> list[0] == first && 0 <= first < |links|
    ensures forall b :: b in list ==> b < |links|
  {
  }

  // ------------------------------------------------------------------------- reversal

  ghost function Reversed(s: seq<nat>): (r: seq<nat>)
    ensures |r| == |s|
  {
    seq(|s|, i requires 0 <= i < |s| => s[|s| - 1 - i])
  }

  lemma ReversedMore(s: seq<nat>, n: nat)
    requires n < |s|
    ensures Reversed(s[..n + 1]) == [s[n]] + Reversed(s[..n])
  {
  }

  lemma ReversedElements(s: seq<nat>)
    ensures forall x :: x in Reversed(s) <==> x in s
  {
    forall x | x in s ensures x in Reversed(s) {
      var i :| 0 <= i < |s| && s[i] == x;
      assert Reversed(s)[|s| - 1 - i] == x;
    }
  }

  lemma ReversedTwice(s: seq<nat>)
    ensures Reversed(Reversed(s)) == s
  {
  }

  // ----------------------------------------------------------------------------- data

  ghost predicate ChunksSized(chunks: seq<seq<byte>>, dataSize: nat) {
    forall i :: 0 <= i < |chunks| ==> |chunks[i]| == dataSize
  }

  ghost predicate InStore(list: seq<nat>, size: nat) {
    forall i :: 0 <= i < |list| ==> list[i] < size
  }

  /** The data of whole blocks, one after the other. */
  ghost function Bytes(chunks: seq<seq<byte>>, list: seq<nat>): seq<byte>
    requires InStore(list, |chunks|)
  {
    if list == [] then []
    else Bytes(chunks, list[..|list| - 1]) + chunks[list[|list| - 1]]
  }

  lemma BytesLast(chunks: seq<seq<byte>>, list: seq<nat>)
    requires InStore(list, |chunks|) && list != []
    ensures Bytes(chunks, list) == Bytes(chunks, list[..|list| - 1]) + chunks[list[|list| - 1]]
  {
  }

  lemma {:induction false} BytesSize(chunks: seq<seq<byte>>, dataSize: nat, list: seq<nat>)
    requires InStore(list, |chunks|) && ChunksSized(chunks, dataSize)
    ensures |Bytes(chunks, list)| == |list| * dataSize
  {
    if list == [] {
    } else {
      BytesSize(chunks, dataSize, list[..|list| - 1]);
      assert |list| * dataSize == (|list| - 1) * dataSize + dataSize;
    }
  }

  lemma {:induction false} BytesFrame(chunks: seq<seq<byte>>, chunks': seq<seq<byte>>, list: seq<nat>)
    requires InStore(list, |chunks|) && |chunks'| == |chunks|
    requires forall b :: b in list ==> chunks'[b] == chunks[b]
    ensures Bytes(chunks', list) == Bytes(chunks, list)
  {
    if list == [] {
    } else {
      assert list[|list| - 1] in list;
      BytesFrame(chunks, chunks', list[..|list| - 1]);
    }
  }

  lemma {:induction false} BytesConcat(chunks: seq<seq<byte>>, a: seq<nat>, b: seq<nat>)
    requires InStore(a, |chunks|) && InStore(b, |chunks|)
    ensures Bytes(chunks, a + b) == Bytes(chunks, a) + Bytes(chunks, b)
  {
    if b == [] {
      assert a + b == a;
    } else {
      BytesConcat(chunks, a, b[..|b| - 1]);
      assert (a + b)[..|a + b| - 1] == a + b[..|b| - 1];
    }
  }

  /** How many blocks it takes to hold n bytes. */
  function Blocks(n: nat, dataSize: nat): nat
    requires dataSize > 0
  {
    (n + dataSize - 1) / dataSize
  }

  lemma BlocksSmall(n: nat, dataSize: nat)
    requires 0 < n <= dataSize
    ensures Blocks(n, dataSize) == 1 && Blocks(0, dataSize) == 0
  {
    assert n + dataSize - 1 == dataSize + (n - 1);
    DivUnique(n + dataSize - 1, dataSize, 1, n - 1);
    DivUnique(dataSize - 1, dataSize, 0, dataSize - 1);
  }

  lemma BlocksStep(n: nat, dataSize: nat)
    requires n > dataSize > 0
    ensures Blocks(n, dataSize) == 1 + Blocks(n - dataSize, dataSize)
  {
    BlocksMore(n - dataSize, dataSize, 1);
  }

  lemma BlocksMore(n: nat, dataSize: nat, whole: nat)
    requires dataSize > 0
    ensures Blocks(whole * dataSize + n, dataSize) == whole + Blocks(n, dataSize)
  {
    var m := n + dataSize - 1;
    var q, r := m / dataSize, m % dataSize;
    assert (whole + q) * dataSize == whole * dataSize + q * dataSize;
    DivUnique(whole * dataSize + m, dataSize, whole + q, r);
  }

  // ---------------------------------------------------------------- chains with contents

  /** What a writer or a blob holds: its chain, how much of the last block is used, and
      the bytes this stands for. */
  datatype Held = Held(first: int, list: seq<nat>, lastSize: nat, contents: seq<byte>)

  ghost predicate HeldSound(links: seq<int>, chunks: seq<seq<byte>>, dataSize: nat, h: Held) {
    |links| == |chunks| && Chain(links, h.first, h.list) && DataSound(chunks, dataSize, h)
  }

  ghost predicate DataSound(chunks: seq<seq<byte>>, dataSize: nat, h: Held) {
    && InStore(h.list, |chunks|)
    && (h.list == [] ==> h.contents == [] && h.lastSize == 0)
    && (h.list != [] ==>
        var n := |h.list| - 1;
        && 0 < h.lastSize <= dataSize
        && |chunks[h.list[n]]| == dataSize
        && h.contents == Bytes(chunks, h.list[..n]) + chunks[h.list[n]][..h.lastSize])
  }

  const EMPTY := Held(NULL, [], 0, [])

  lemma HeldEmpty(links: seq<int>, chunks: seq<seq<byte>>, dataSize: nat)
    requires |links| == |chunks|
    ensures HeldSound(links, chunks, dataSize, EMPTY)
    ensures forall h: Held :: HeldSound(links, chunks, dataSize, h) && h.list == [] ==> h == EMPTY
  {
  }

  /** Blocks are neither missing nor left over. */
  lemma HeldBlocks(links: seq<int>, chunks: seq<seq<byte>>, dataSize: nat, h: Held)
    requires HeldSound(links, chunks, dataSize, h) && ChunksSized(chunks, dataSize) && dataSize > 0
    ensures |h.list| == Blocks(|h.contents|, dataSize)
    ensures h.list != [] ==> |h.contents| == (|h.list| - 1) * dataSize + h.lastSize
  {
    if h.list == [] {
      BlocksSmall(1, dataSize);
    } else {
      var n := |h.list| - 1;
      BytesSize(chunks, dataSize, h.list[..n]);
      BlocksMore(h.lastSize, dataSize, n);
      BlocksSmall(h.lastSize, dataSize);
    }
  }

  /** Writes to other blocks change nothing. */
  lemma HeldFrame(links: seq<int>, chunks: seq<seq<byte>>, links': seq<int>, chunks': seq<seq<byte>>, dataSize: nat,
      h: Held)
    requires HeldSound(links, chunks, dataSize, h) && |links'| == |links| && |chunks'| == |chunks|
    requires forall b :: b in h.list ==> links'[b] == links[b] && chunks'[b] == chunks[b]
    ensures HeldSound(links', chunks', dataSize, h)
  {
    ChainFrame(links, links', h.first, h.list);
    if h.list != [] {
      var n := |h.list| - 1;
      assert h.list[n] in h.list;
      BytesFrame(chunks, chunks', h.list[..n]);
    }
  }

  ghost predicate SameOutside<T>(a: seq<T>, b: seq<T>, list: seq<nat>) {
    |a| == |b| && forall i: nat :: i < |a| && i !in list ==> a[i] == b[i]
  }

  /** A position in a block.  A write of nothing to an empty writer leaves an offset into
      no block. */
  datatype Cursor = Nowhere | At(block: int, offset: nat) {
    function Offset(): nat {
      if At? then offset else 0
    }
  }
}
