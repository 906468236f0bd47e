/** Draining a stopped dispatcher: the per-broker batch lists are merged into one by
    cycling through them, dropping a list by swapping it past the end once it is empty. */
module BrokerMerge {
  import opened Sorting

  /** A position in one of several lists. */
  datatype Place = Place(list: nat, pos: nat)

  /** Everything held in a sequence of lists. */
  ghost function Total<T>(lists: seq<seq<T>>): multiset<T> {
    if lists == [] then multiset{} else Total(lists[..|lists| - 1]) + multiset(lists[|lists| - 1])
  }

  ghost predicate InLists<T>(lists: seq<seq<T>>, at: Place) {
    at.list < |lists| && at.pos < |lists[at.list]|
  }

  /** origin[i] says which list, and where in it, the i-th result came from. */
  ghost predicate CameFrom<T>(lists: seq<seq<T>>, result: seq<T>, origin: seq<Place>) {
    && |origin| == |result|
    && NoDuplicates(origin)
    && (forall i :: 0 <= i < |origin| ==>
          InLists(lists, origin[i]) && result[i] == lists[origin[i].list][origin[i].pos])
    && (forall i, j :: 0 <= i < j < |origin| ==> origin[i].pos <= origin[j].pos)
  }

  /** A fair merge takes every item once, never a later position before an earlier one. */
  ghost predicate FairMerge<T>(lists: seq<seq<T>>, result: seq<T>, origin: seq<Place>) {
    && CameFrom(lists, result, origin)
    && (forall at: Place :: InLists(lists, at) ==> at in origin)
    && multiset(result) == Total(lists)
  }

  // ---------------------------------------------------------------------- loop states

  /** In round r, walking down to slot i: slots below i still hold lists from position r,
      slots from i up to live hold lists from position r + 1, slots past live are done. */
  ghost predicate InRound<T>(lists: seq<seq<T>>, work: seq<seq<T>>, src: seq<nat>, r: nat, i: nat, live: nat) {
    && |src| == |work| && i <= live <= |work|
    && NoDuplicates(src)
    && (forall s :: 0 <= s < |src| ==> src[s] < |lists|)
    && (forall l: nat :: l < |lists| && |lists[l]| > r ==> l in src)
    && (forall s :: 0 <= s < i ==> r < |lists[src[s]]| && work[s] == lists[src[s]][r..])
    && (forall s :: i <= s < live ==> r + 1 < |lists[src[s]]| && work[s] == lists[src[s]][r + 1..])
    && (forall s :: live <= s < |work| ==> |lists[src[s]]| == r + 1 && work[s] == [])
  }

  /** What has been taken: all of the first r positions, and position r of the lists not
      still waiting in the first i slots. */
  ghost predicate Taken<T>(lists: seq<seq<T>>, src: seq<nat>, r: nat, i: nat, origin: seq<Place>)
    requires i <= |src|
  {
    forall at: Place :: at in origin <==> InLists(lists, at) && (at.pos < r || (at.pos == r && at.list !in src[..i]))
  }

  // --------------------------------------------------------------------------- totals

  lemma {:induction false} TotalUpdate<T>(lists: seq<seq<T>>, i: nat, x: seq<T>)
    requires i < |lists|
    ensures Total(lists[i := x]) + multiset(lists[i]) == Total(lists) + multiset(x)
  {
    var n := |lists| - 1;
    var updated := lists[i := x];
    assert Total(updated) == Total(updated[..n]) + multiset(updated[n]);
    if i == n {
      assert updated[..n] == lists[..n];
    } else {
      TotalUpdate(lists[..n], i, x);
      assert updated[..n] == lists[..n][i := x] && lists[..n][i] == lists[i];
      var before, after, m := Total(lists[..n]), Total(updated[..n]), multiset(lists[n]);
      assert (after + m) + multiset(lists[i]) == (after + multiset(lists[i])) + m;
      assert (before + m) + multiset(x) == (before + multiset(x)) + m;
    }
  }

  lemma {:induction false} TotalTrim<T>(lists: seq<seq<T>>, n: nat)
    requires n <= |lists| && forall s :: n <= s < |lists| ==> lists[s] == []
    ensures Total(lists[..n]) == Total(lists)
    decreases |lists|
  {
    if n < |lists| {
      TotalTrim(lists[..|lists| - 1], n);
      assert lists[..|lists| - 1][..n] == lists[..n];
    } else {
      assert lists[..n] == lists;
    }
  }

  lemma Cancel<T>(x: multiset<T>, y: multiset<T>, z: multiset<T>, b: multiset<T>, c: multiset<T>, d: multiset<T>)
    requires x + d == y + c && y + c == z + b && d == b
    ensures x == z
  {
    assert x == (x + d) - d && z == (z + b) - b;
  }

  /** Swapping two slots moves nothing in or out. */
  lemma TotalSwap<T>(lists: seq<seq<T>>, i: nat, j: nat)
    requires i < |lists| && j < |lists|
    ensures Total(lists[i := lists[j]][j := lists[i]]) == Total(lists)
  {
    var moved := lists[i := lists[j]];
    TotalUpdate(lists, i, lists[j]);
    TotalUpdate(moved, j, lists[i]);
    var swapped, b, c := Total(moved[j := lists[i]]), multiset(lists[j]), multiset(lists[i]);
    Cancel(swapped, Total(moved), Total(lists), b, c, multiset(moved[j]));
  }

  ghost function LongestOf<T>(lists: seq<seq<T>>): (n: nat)
    ensures forall l :: 0 <= l < |lists| ==> |lists[l]| <= n
  {
    if lists == [] then 0
    else
      var rest := LongestOf(lists[..|lists| - 1]);
      assert forall l :: 0 <= l < |lists| - 1 ==> lists[l] == lists[..|lists| - 1][l];
      if |lists[|lists| - 1]| > rest then |lists[|lists| - 1]| else rest
  }

  // --------------------------------------------------------------------------- one take

  lemma TakeFront<T>(lists: seq<seq<T>>, work: seq<seq<T>>, src: seq<nat>, r: nat, i: nat, live: nat,
                     result: seq<T>, origin: seq<Place>)
    requires InRound(lists, work, src, r, i + 1, live) && i < live
    requires CameFrom(lists, result, origin) && Taken(lists, src, r, i + 1, origin)
    ensures work[i] != []
    ensures CameFrom(lists, result + [work[i][0]], origin + [Place(src[i], r)])
    ensures Taken(lists, src, r, i, origin + [Place(src[i], r)])
  {
  }

  function Swapped<T>(s: seq<T>, i: nat, j: nat): (r: seq<T>)
    requires i < |s| && j < |s|
    ensures |r| == |s|
  {
    s[i := s[j]][j := s[i]]
  }

  lemma SwappedElements(src: seq<nat>, i: nat, j: nat)
    requires i < |src| && j < |src| && NoDuplicates(src)
    ensures NoDuplicates(Swapped(src, i, j))
    ensures forall l :: l in src ==> l in Swapped(src, i, j)
  {
    var src' := Swapped(src, i, j);
    assert src'[i] == src[j] && src'[j] == src[i];
    assert forall s :: 0 <= s < |src| && s != i && s != j ==> src'[s] == src[s];
  }

  /** Slot i has given its last item: the list of the last live slot takes its place. */
  lemma DropEmptied<T>(lists: seq<seq<T>>, work: seq<seq<T>>, src: seq<nat>, r: nat, i: nat, live: nat)
    requires InRound(lists, work, src, r, i + 1, live) && i < live && |work[i]| == 1
    ensures InRound(lists, Swapped(work[i := []], i, live - 1), Swapped(src, i, live - 1), r, i, live - 1)
    ensures Swapped(src, i, live - 1)[..i] == src[..i]
  {
    var last := live - 1;
    SwappedElements(src, i, last);
    var work', src' := Swapped(work[i := []], i, last), Swapped(src, i, last);
    assert |lists[src[i]]| == r + 1;
    forall s | 0 <= s < |work| && s != i && s != last ensures work'[s] == work[s] && src'[s] == src[s] {
    }
    assert src'[last] == src[i] && work'[last] == [];
    assert i < last ==> src'[i] == src[last] && work'[i] == work[last];
  }

  lemma KeepRest<T>(lists: seq<seq<T>>, work: seq<seq<T>>, src: seq<nat>, r: nat, i: nat, live: nat)
    requires InRound(lists, work, src, r, i + 1, live) && i < live && |work[i]| > 1
    ensures InRound(lists, work[i := work[i][1..]], src, r, i, live)
  {
  }

  lemma NextRound<T>(lists: seq<seq<T>>, work: seq<seq<T>>, src: seq<nat>, r: nat, live: nat, origin: seq<Place>)
    requires InRound(lists, work, src, r, 0, live) && Taken(lists, src, r, 0, origin)
    ensures InRound(lists, work[..live], src[..live], r + 1, live, live)
    ensures Taken(lists, src[..live], r + 1, live, origin)
  {
  }

  lemma TotalTake<T>(work: seq<seq<T>>, i: nat, result: seq<T>)
    requires i < |work| && work[i] != []
    ensures multiset(result + [work[i][0]]) + Total(work[i := work[i][1..]]) == multiset(result) + Total(work)
  {
    var front, rest := work[i][0], work[i][1..];
    assert work[i] == [front] + rest;
    TotalUpdate(work, i, rest);
    var before, after, m := Total(work), Total(work[i := rest]), multiset(rest);
    assert after + multiset([front]) == before by {
      assert (after + multiset([front])) + m == after + (multiset([front]) + m);
      assert after + multiset([front]) == (after + multiset([front])) + m - m;
      assert before == before + m - m;
    }
    assert multiset(result + [front]) + after == multiset(result) + (after + multiset([front]));
  }

  // -------------------------------------------------------------------------- the merge

  ghost predicate Merging<T>(lists: seq<seq<T>>, work: seq<seq<T>>, src: seq<nat>, r: nat, i: nat, live: nat,
                             result: seq<T>, origin: seq<Place>)
  {
    && |src| == |work| && i <= live <= |work|
    && InRound(lists, work, src, r, i, live)
    && CameFrom(lists, result, origin) && Taken(lists, src, r, i, origin)
    && multiset(result) + Total(work) == Total(lists)
  }

  lemma StepDrop<T>(lists: seq<seq<T>>, work: seq<seq<T>>, src: seq<nat>, r: nat, i: nat, live: nat,
                    result: seq<T>, origin: seq<Place>)
    requires Merging(lists, work, src, r, i + 1, live, result, origin) && i < live && |work[i]| == 1
    ensures Merging(lists, Swapped(work[i := []], i, live - 1), Swapped(src, i, live - 1), r, i, live - 1,
                    result + [work[i][0]], origin + [Place(src[i], r)])
  {
    hide InRound, CameFrom, Taken, Total;
    TakeFront(lists, work, src, r, i, live, result, origin);
    TotalTake(work, i, result);
    DropEmptied(lists, work, src, r, i, live);
    assert work[i][1..] == [];
    TotalSwap(work[i := []], i, live - 1);
    TakenCarries(lists, src, Swapped(src, i, live - 1), r, i, origin + [Place(src[i], r)]);
  }

  lemma StepKeep<T>(lists: seq<seq<T>>, work: seq<seq<T>>, src: seq<nat>, r: nat, i: nat, live: nat,
                    result: seq<T>, origin: seq<Place>)
    requires Merging(lists, work, src, r, i + 1, live, result, origin) && i < live && |work[i]| != 1
    ensures work[i] != []
    ensures Merging(lists, work[i := work[i][1..]], src, r, i, live, result + [work[i][0]], origin + [Place(src[i], r)])
  {
    hide InRound, CameFrom, Taken, Total;
    TakeFront(lists, work, src, r, i, live, result, origin);
    TotalTake(work, i, result);
    KeepRest(lists, work, src, r, i, live);
  }

  /** Takes the front item of slot i, dropping the list if that was its last. */
  method TakeOne<T>(ghost lists: seq<seq<T>>, work: seq<seq<T>>, ghost src: seq<nat>, ghost r: nat, i: nat, live: nat,
                    result: seq<T>, ghost origin: seq<Place>)
    returns (work': seq<seq<T>>, ghost src': seq<nat>, live': nat, result': seq<T>, ghost origin': seq<Place>)
    requires i < live && Merging(lists, work, src, r, i + 1, live, result, origin)
    ensures Merging(lists, work', src', r, i, live', result', origin')
  {
    if |work[i]| == 1 {
      StepDrop(lists, work, src, r, i, live, result, origin);
      live' := live - 1;
      work', src' := Swapped(work[i := []], i, live'), Swapped(src, i, live');
    } else {
      StepKeep(lists, work, src, r, i, live, result, origin);
      live' := live;
      work', src' := work[i := work[i][1..]], src;
    }
    hide Merging;
    result', origin' := result + [work[i][0]], origin + [Place(src[i], r)];
  }

  /** One pass over the vector, from its end: each list gives its front item. */
  method OneRound<T>(ghost lists: seq<seq<T>>, start: seq<seq<T>>, ghost startSrc: seq<nat>, ghost r: nat,
                     soFar: seq<T>, ghost soFarOrigin: seq<Place>)
    returns (work: seq<seq<T>>, ghost src: seq<nat>, result: seq<T>, ghost origin: seq<Place>)
    requires Merging(lists, start, startSrc, r, |start|, |start|, soFar, soFarOrigin)
    ensures Merging(lists, work, src, r + 1, |work|, |work|, result, origin)
  {
    hide Merging;
    work, src, result, origin := start, startSrc, soFar, soFarOrigin;
    var nonemptyCount: nat := |work|;
    var i: nat := nonemptyCount;
    while i > 0
      invariant Merging(lists, work, src, r, i, nonemptyCount, result, origin)
      decreases i
    {
      i := i - 1;
      MergingBounds(lists, work, src, r, i + 1, nonemptyCount, result, origin);
      work, src, nonemptyCount, result, origin := TakeOne(lists, work, src, r, i, nonemptyCount, result, origin);
    }
    RoundDone(lists, work, src, r, nonemptyCount, result, origin);
    work, src := work[..nonemptyCount], src[..nonemptyCount];
  }

  lemma MergingBounds<T>(lists: seq<seq<T>>, work: seq<seq<T>>, src: seq<nat>, r: nat, i: nat, live: nat,
                         result: seq<T>, origin: seq<Place>)
    requires Merging(lists, work, src, r, i, live, result, origin)
    ensures i <= live <= |work|
  {
  }

  lemma RoundDone<T>(lists: seq<seq<T>>, work: seq<seq<T>>, src: seq<nat>, r: nat, live: nat,
                     result: seq<T>, origin: seq<Place>)
    requires Merging(lists, work, src, r, 0, live, result, origin)
    ensures live <= |work| == |src|
    ensures Merging(lists, work[..live], src[..live], r + 1, live, live, result, origin)
  {
    NextRound(lists, work, src, r, live, origin);
    TotalTrim(work, live);
  }

  /** Rounds until every list is empty. */
  method EmptyInto<T>(lists: seq<seq<T>>) returns (result: seq<T>)
    requires forall l :: 0 <= l < |lists| ==> lists[l] != []
    ensures multiset(result) == Total(lists)
    ensures exists origin :: FairMerge(lists, result, origin)
  {
    result := [];
    ghost var origin: seq<Place> := [];
    var work := lists;
    ghost var src: seq<nat> := seq(|lists|, l => l);
    ghost var r: nat := 0;
    forall l: nat | l < |lists| ensures l in src {
      assert src[l] == l;
    }
    assert src[..|src|] == src;
    while work != []
      invariant Merging(lists, work, src, r, |work|, |work|, result, origin)
      decreases LongestOf(lists) - r
    {
      assert r < |lists[src[0]]|;
      work, src, result, origin := OneRound(lists, work, src, r, result, origin);
      r := r + 1;
    }
    assert FairMerge(lists, result, origin);
  }

  lemma TakenCarries<T>(lists: seq<seq<T>>, src: seq<nat>, src': seq<nat>, r: nat, i: nat, origin: seq<Place>)
    requires i <= |src| && i <= |src'| && src[..i] == src'[..i] && Taken(lists, src, r, i, origin)
    ensures Taken(lists, src', r, i, origin)
  {
  }

  // ------------------------------------------------------------ what fairness amounts to

  /** Batches of one broker stay in their order. */
  lemma MergeKeepsListOrder<T>(lists: seq<seq<T>>, result: seq<T>, origin: seq<Place>, i: nat, j: nat)
    requires FairMerge(lists, result, origin) && i < j < |result| && origin[i].list == origin[j].list
    ensures origin[i].pos < origin[j].pos
  {
  }

  /** The j-th batch of any broker comes before the k-th batch of any other when j < k. */
  lemma EarlierPositionFirst<T>(lists: seq<seq<T>>, result: seq<T>, origin: seq<Place>, a: Place, b: Place)
    returns (i: nat, j: nat)
    requires FairMerge(lists, result, origin) && InLists(lists, a) && InLists(lists, b) && a.pos < b.pos
    ensures i < j < |result|
    ensures origin[i] == a && origin[j] == b
    ensures result[i] == lists[a.list][a.pos] && result[j] == lists[b.list][b.pos]
  {
    assert a in origin && b in origin;
    i :| i < |origin| && origin[i] == a;
    j :| j < |origin| && origin[j] == b;
  }
}
