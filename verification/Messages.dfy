/** Messages and the collections they move through.  Each message has one owner at a
    time, so lists of messages are values; the partition recorded on a message is the
    only part of it that routing writes. */
module Messages {
  import opened Sorting

  datatype RoutingType = AnyPartition | PartitionKey

  datatype Msg = Msg(
    id: nat,
    topic: string,
    routing: RoutingType,
    key: int,
    bodySize: nat,
    timestamp: int,
    truncated: bool,
    partition: int)

  /** Messages of one topic. */
  type Batch = seq<Msg>

  function TopicOf(m: Msg): string {
    m.topic
  }

  /** The message apart from the partition recorded on it: what must not get lost. */
  function Body(m: Msg): Msg {
    m.(partition := 0)
  }

  function Mapped<T, U>(f: T -> U, s: seq<T>): seq<U> {
    seq(|s|, i requires 0 <= i < |s| => f(s[i]))
  }

  function Bodies(ms: seq<Msg>): seq<Msg> {
    Mapped(Body, ms)
  }

  /** How often each message occurs in a list. */
  function Bag(ms: seq<Msg>): multiset<Msg> {
    multiset(Bodies(ms))
  }

  function Flat(batches: seq<Batch>): seq<Msg> {
    if batches == [] then [] else Flat(batches[..|batches| - 1]) + batches[|batches| - 1]
  }

  function BatchBag(batches: seq<Batch>): multiset<Msg> {
    Bag(Flat(batches))
  }

  predicate SingleTopic(batch: Batch) {
    batch != [] && forall i :: 0 <= i < |batch| ==> batch[i].topic == batch[0].topic
  }

  // -------------------------------------------------------------------- laws of bags

  lemma BagConcat(a: seq<Msg>, b: seq<Msg>)
    ensures Bag(a + b) == Bag(a) + Bag(b)
  {
    assert Bodies(a + b) == Bodies(a) + Bodies(b);
  }

  lemma BagSame(a: seq<Msg>, b: seq<Msg>)
    requires Bodies(a) == Bodies(b)
    ensures Bag(a) == Bag(b)
  {
  }

  lemma {:induction false} FlatConcat(a: seq<Batch>, b: seq<Batch>)
    ensures Flat(a + b) == Flat(a) + Flat(b)
  {
    if b == [] {
      assert a + b == a;
    } else {
      var n := |b| - 1;
      FlatConcat(a, b[..n]);
      assert (a + b)[..|a + b| - 1] == a + b[..n];
    }
  }

  lemma BatchBagConcat(a: seq<Batch>, b: seq<Batch>)
    ensures BatchBag(a + b) == BatchBag(a) + BatchBag(b)
  {
    FlatConcat(a, b);
    BagConcat(Flat(a), Flat(b));
  }

  lemma EmptyBag()
    ensures Bag([]) == multiset{} && BatchBag([]) == multiset{}
  {
  }

  lemma BatchBagOne(batch: Batch)
    ensures BatchBag([batch]) == Bag(batch)
  {
    assert [batch][..0] == [];
    assert Flat([batch]) == batch;
  }

  lemma BatchBagWithout(batches: seq<Batch>, k: nat)
    requires k < |batches|
    ensures BatchBag(batches) == BatchBag(Without(batches, k)) + Bag(batches[k])
  {
    hide BatchBag;
    assert batches == batches[..k] + [batches[k]] + batches[k + 1..];
    BatchBagConcat(batches[..k] + [batches[k]], batches[k + 1..]);
    BatchBagConcat(batches[..k], [batches[k]]);
    BatchBagConcat(batches[..k], batches[k + 1..]);
    BatchBagOne(batches[k]);
  }

  lemma MappedWithout<T, U>(f: T -> U, s: seq<T>, k: nat)
    requires k < |s|
    ensures multiset(Mapped(f, s)) == multiset(Mapped(f, Without(s, k))) + multiset{f(s[k])}
  {
    var r := Mapped(f, s);
    assert Mapped(f, Without(s, k)) == r[..k] + r[k + 1..];
    assert r == r[..k] + [f(s[k])] + r[k + 1..];
  }

  /** A function applied to permutations gives permutations. */
  lemma {:induction false} MappedPermuted<T, U>(f: T -> U, a: seq<T>, b: seq<T>)
    requires multiset(a) == multiset(b)
    ensures multiset(Mapped(f, a)) == multiset(Mapped(f, b))
    decreases |a|
  {
    SameElements(a, b);
    if a == [] {
      assert Mapped(f, a) == Mapped(f, b);
    } else {
      hide Mapped;
      var k := RemoveLast(a, b);
      MappedPermuted(f, a[..|a| - 1], Without(b, k));
      MappedWithout(f, b, k);
      MappedWithout(f, a, |a| - 1);
      assert Without(a, |a| - 1) == a[..|a| - 1];
    }
  }

  lemma MappedConcat<T, U>(f: T -> U, a: seq<T>, b: seq<T>)
    ensures Mapped(f, a + b) == Mapped(f, a) + Mapped(f, b)
  {
  }

  /** Reordering messages, or batches, loses nothing. */
  lemma BagPermuted(a: seq<Msg>, b: seq<Msg>)
    requires multiset(a) == multiset(b)
    ensures Bag(a) == Bag(b)
  {
    MappedPermuted(Body, a, b);
  }

  lemma {:induction false} BatchBagPermuted(a: seq<Batch>, b: seq<Batch>)
    requires multiset(a) == multiset(b)
    ensures BatchBag(a) == BatchBag(b)
    decreases |a|
  {
    SameElements(a, b);
    if a == [] {
    } else {
      hide BatchBag;
      var k := RemoveLast(a, b);
      BatchBagPermuted(a[..|a| - 1], Without(b, k));
      BatchBagWithout(b, k);
      BatchBagWithout(a, |a| - 1);
      assert Without(a, |a| - 1) == a[..|a| - 1];
    }
  }

  // ------------------------------------------------------------------------ grouping

  /** The elements with one value of a key, in order. */
  function Having<T, K(==)>(s: seq<T>, f: T -> K, k: K): seq<T> {
    if s == [] then []
    else
      var rest := Having(s[..|s| - 1], f, k);
      if f(s[|s| - 1]) == k then rest + [s[|s| - 1]] else rest
  }

  /** The elements whose key lies in a set, in order. */
  ghost function Within<T, K>(s: seq<T>, f: T -> K, ks: set<K>): seq<T> {
    if s == [] then []
    else
      var rest := Within(s[..|s| - 1], f, ks);
      if f(s[|s| - 1]) in ks then rest + [s[|s| - 1]] else rest
  }

  lemma HavingSnoc<T, K>(s: seq<T>, x: T, f: T -> K, k: K)
    ensures Having(s + [x], f, k) == if f(x) == k then Having(s, f, k) + [x] else Having(s, f, k)
  {
  }

  lemma {:induction false} HavingElements<T, K>(s: seq<T>, f: T -> K, k: K)
    ensures forall x :: x in Having(s, f, k) <==> x in s && f(x) == k
  {
    if s == [] {
    } else {
      HavingElements(s[..|s| - 1], f, k);
      assert s == s[..|s| - 1] + [s[|s| - 1]];
    }
  }

  /** Taking one group out of what is left to do. */
  lemma {:induction false} WithinSplit<T, K>(s: seq<T>, f: T -> K, ks: set<K>, k: K)
    requires k in ks
    ensures multiset(Within(s, f, ks)) == multiset(Within(s, f, ks - {k})) + multiset(Having(s, f, k))
  {
    if s == [] {
    } else {
      WithinSplit(s[..|s| - 1], f, ks, k);
    }
  }

  lemma {:induction false} WithinEnds<T, K>(s: seq<T>, f: T -> K, ks: set<K>)
    ensures Within(s, f, {}) == []
    ensures (forall x :: x in s ==> f(x) in ks) ==> Within(s, f, ks) == s
  {
    if s == [] {
    } else {
      WithinEnds(s[..|s| - 1], f, ks);
      assert s == s[..|s| - 1] + [s[|s| - 1]];
    }
  }
}
