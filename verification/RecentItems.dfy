/** Lists of the most recently seen items, up to a cap. */
module RecentItems {
  import opened Sorting

  // ------------------------------------------------------------- most recently seen items

  function Except<T(==)>(list: seq<T>, s: T): seq<T> {
    if list == [] then [] else (if list[0] == s then [] else [list[0]]) + Except(list[1..], s)
  }

  /** The distinct items seen, the most recently seen first. */
  function Recent<T(==)>(seen: seq<T>): seq<T> {
    if seen == [] then []
    else [seen[|seen| - 1]] + Except(Recent(seen[..|seen| - 1]), seen[|seen| - 1])
  }

  function Capped<T>(list: seq<T>, cap: nat): seq<T> {
    if |list| <= cap then list else list[..cap]
  }

  lemma {:induction false} ExceptElements<T>(list: seq<T>, s: T)
    requires NoDuplicates(list)
    ensures NoDuplicates(Except(list, s))
    ensures forall x :: x in Except(list, s) <==> x in list && x != s
  {
    if list == [] {
    } else {
      ExceptElements(list[1..], s);
      assert list == [list[0]] + list[1..];
      assert list[0] !in list[1..];
      ConsDistinct(list[0], Except(list[1..], s));
    }
  }

  lemma ConsDistinct<T>(x: T, list: seq<T>)
    requires NoDuplicates(list) && x !in list
    ensures NoDuplicates([x] + list)
  {
  }

  lemma {:induction false} RecentElements<T>(seen: seq<T>)
    ensures NoDuplicates(Recent(seen))
    ensures forall x :: x in Recent(seen) <==> x in seen
  {
    if seen == [] {
    } else {
      var n := |seen| - 1;
      RecentElements(seen[..n]);
      ExceptElements(Recent(seen[..n]), seen[n]);
      ConsDistinct(seen[n], Except(Recent(seen[..n]), seen[n]));
      assert seen == seen[..n] + [seen[n]];
    }
  }

  /** When an item was last seen. */
  ghost function LastSeen<T>(seen: seq<T>, x: T): (k: nat)
    requires x in seen
    ensures k < |seen| && seen[k] == x && x !in seen[k + 1..]
  {
    var n := |seen| - 1;
    if seen[n] == x then n
    else
      assert seen == seen[..n] + [seen[n]];
      LastSeenLater(seen, x, LastSeen(seen[..n], x));
      LastSeen(seen[..n], x)
  }

  lemma LastSeenLater<T>(seen: seq<T>, x: T, k: nat)
    requires k < |seen| - 1 && seen[|seen| - 1] != x && x !in seen[..|seen| - 1][k + 1..]
    ensures x !in seen[k + 1..]
  {
  }

  ghost predicate ByLastSeen<T>(seen: seq<T>, list: seq<T>) {
    && (forall i :: 0 <= i < |list| ==> list[i] in seen)
    && forall i, j :: 0 <= i < j < |list| ==> LastSeen(seen, list[i]) > LastSeen(seen, list[j])
  }

  lemma {:induction false} ExceptKeepsOrder<T>(seen: seq<T>, list: seq<T>, s: T)
    requires ByLastSeen(seen, list)
    ensures ByLastSeen(seen, Except(list, s))
    ensures forall x :: x in Except(list, s) ==> x in list && x != s
  {
    if list != [] {
      hide LastSeen, ByLastSeen;
      TailOrder(seen, list);
      ExceptKeepsOrder(seen, list[1..], s);
      if list[0] != s {
        ConsOrder(seen, list[0], Except(list[1..], s));
      }
    } else {
      assert Except(list, s) == list;
    }
  }

  lemma TailOrder<T>(seen: seq<T>, list: seq<T>)
    requires ByLastSeen(seen, list) && list != []
    ensures ByLastSeen(seen, list[1..]) && list[0] in seen
    ensures forall x :: x in list[1..] ==> x in seen && LastSeen(seen, list[0]) > LastSeen(seen, x)
  {
  }

  lemma ConsOrder<T>(seen: seq<T>, x: T, list: seq<T>)
    requires x in seen && ByLastSeen(seen, list)
    requires forall y :: y in list ==> LastSeen(seen, x) > LastSeen(seen, y)
    ensures ByLastSeen(seen, [x] + list)
  {
    hide LastSeen;
    var r := [x] + list;
    forall i, j | 0 <= i < j < |r| ensures LastSeen(seen, r[i]) > LastSeen(seen, r[j]) {
      assert r[j] == list[j - 1] && list[j - 1] in list;
      if i > 0 { assert r[i] == list[i - 1]; }
    }
  }

  /** Recent lists every item once, in the order in which they were last seen. */
  lemma {:induction false} RecentOrder<T>(seen: seq<T>)
    ensures ByLastSeen(seen, Recent(seen))
  {
    if seen != [] {
      hide LastSeen, ByLastSeen;
      var before, s := seen[..|seen| - 1], seen[|seen| - 1];
      RecentOrder(before);
      ExceptKeepsOrder(before, Recent(before), s);
      assert seen == before + [s];
      SeenMore(before, s, Except(Recent(before), s));
      ConsOrder(seen, s, Except(Recent(before), s));
    } else {
      assert Recent(seen) == [];
    }
  }

  /** Seeing one more item changes nothing about the others. */
  lemma SeenMore<T>(before: seq<T>, s: T, list: seq<T>)
    requires ByLastSeen(before, list) && s !in list
    ensures ByLastSeen(before + [s], list)
    ensures forall x :: x in list ==> x in before + [s] && LastSeen(before + [s], s) > LastSeen(before + [s], x)
  {
  }

  // --------------------------------------------------------------------- updating the list

  /** The list after one more item: the item comes first, and if the list gets too long its
      last one goes. */
  function Touched<T(==)>(list: seq<T>, s: T, cap: nat): seq<T> {
    if s in list then [s] + Except(list, s) else Capped([s] + list, cap)
  }

  lemma {:induction false} ExceptAbsent<T>(list: seq<T>, s: T)
    requires s !in list
    ensures Except(list, s) == list
  {
    if list == [] {
    } else {
      ExceptAbsent(list[1..], s);
    }
  }

  lemma {:induction false} ExceptOne<T>(list: seq<T>, s: T, k: nat)
    requires NoDuplicates(list) && k < |list| && list[k] == s
    ensures Except(list, s) == list[..k] + list[k + 1..]
  {
    if k == 0 {
      assert s !in list[1..];
      ExceptAbsent(list[1..], s);
    } else {
      ExceptOne(list[1..], s, k - 1);
      assert list[..k] == [list[0]] + list[1..][..k - 1];
      assert list[1..][k..] == list[k + 1..];
    }
  }

  /** Keeping only the capped list loses nothing that a later capped list needs. */
  lemma TouchedIsRecent<T>(seen: seq<T>, s: T, cap: nat)
    requires cap > 0
    ensures Touched(Capped(Recent(seen), cap), s, cap) == Capped(Recent(seen + [s]), cap)
  {
    var full := Recent(seen);
    RecentElements(seen);
    assert (seen + [s])[..|seen|] == seen;
    hide Recent;
    if s in full {
      var k :| 0 <= k < |full| && full[k] == s;
      if k < cap {
        TouchedInside(full, s, cap, k);
      } else {
        TouchedBeyond(full, s, cap, k);
      }
    } else {
      ExceptAbsent(full, s);
    }
  }

  lemma TouchedInside<T>(full: seq<T>, s: T, cap: nat, k: nat)
    requires NoDuplicates(full) && k < |full| && k < cap && full[k] == s
    ensures Touched(Capped(full, cap), s, cap) == Capped([s] + Except(full, s), cap)
  {
    ExceptOne(full, s, k);
    var rest := full[..k] + full[k + 1..];
    if |full| > cap {
      var list := full[..cap];
      assert s in list by { assert list[k] == s; }
      ExceptOne(list, s, k);
      hide Except, NoDuplicates;
      SlicedExcept(full, cap, k);
      FrontOf(s, rest, cap);
    }
  }

  lemma SlicedExcept<T>(full: seq<T>, cap: nat, k: nat)
    requires k < cap <= |full|
    ensures full[..cap][..k] + full[..cap][k + 1..] == (full[..k] + full[k + 1..])[..cap - 1]
  {
  }

  lemma FrontOf<T>(s: T, rest: seq<T>, cap: nat)
    requires 0 < cap <= |rest| + 1
    ensures ([s] + rest)[..cap] == [s] + rest[..cap - 1]
  {
  }

  lemma TouchedBeyond<T>(full: seq<T>, s: T, cap: nat, k: nat)
    requires NoDuplicates(full) && 0 < cap <= k < |full| && full[k] == s
    ensures Touched(Capped(full, cap), s, cap) == Capped([s] + Except(full, s), cap)
  {
    ExceptOne(full, s, k);
    assert s !in full[..cap];
    assert ([s] + (full[..k] + full[k + 1..]))[..cap] == ([s] + full[..cap])[..cap];
  }
}
