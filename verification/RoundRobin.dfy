/** Taking the usable partitions of a topic in turn, by a counter that wraps. */
module RoundRobin {
  import opened Arithmetic

  const SIZE_T := 0x1_0000_0000_0000_0000

  function Bumped(counter: nat): nat {
    (counter + 1) % SIZE_T
  }

  /** A topic's counter after some choices. */
  ghost function CounterAfter(counter: nat, choices: nat): nat {
    if choices == 0 then counter else Bumped(CounterAfter(counter, choices - 1))
  }

  /** The position that the last one of some choices takes. */
  ghost function Choice(counter: nat, choices: nat, count: nat): nat
    requires count > 0
  {
    CounterAfter(counter, choices) % count
  }

  lemma {:induction false} CounterCounts(counter: nat, choices: nat)
    requires counter < SIZE_T && choices <= SIZE_T
    ensures CounterAfter(counter, choices) ==
      if counter + choices < SIZE_T then counter + choices else counter + choices - SIZE_T
  {
    if choices == 0 {
    } else {
      CounterCounts(counter, choices - 1);
    }
  }

  // ------------------------------------------------------------------- nearby remainders

  lemma NearDiffer(a: nat, b: nat, d: nat)
    requires a < b < a + d
    ensures a % d != b % d
  {
    DivMod(a, d);
    DivMod(b, d);
    if a / d < b / d {
      MulStep(a / d, b / d, d);
    } else if b / d < a / d {
      MulStep(b / d, a / d, d);
    }
  }

  lemma WholeRounds(n: nat, m: nat, d: nat)
    requires d > 0 && m % d == 0
    ensures (n + m) % d == n % d
  {
    DivMod(n, d);
    DivMod(m, d);
    assert (n / d + m / d) * d == n / d * d + m / d * d;
    ModUnique(n + m, d, n / d + m / d, n % d);
  }

  lemma SmallRemainder(n: nat, d: nat)
    requires n < d
    ensures n % d == n
  {
    ModUnique(n, d, 0, n);
  }

  /** The remainder just before a number, going back a little. */
  lemma RemainderBack(m: nat, d: nat, back: nat)
    requires d > 0 && 0 < back <= m % d
    ensures back <= m && (m - back) % d == m % d - back
  {
    DivMod(m, d);
    ModUnique(m - back, d, m / d, m % d - back);
  }

  // -------------------------------------------------------------------------- in turn

  /** As many choices as there are positions take different ones, so each one once. */
  ghost predicate InTurn(counter: nat, count: nat)
    requires count > 0
  {
    forall j: nat, k: nat :: 1 <= j < k <= count ==> Choice(counter, j, count) != Choice(counter, k, count)
  }

  /** The positions are taken in turn exactly if the counter does not wrap on the way, or
      the wrap falls between two rounds or between the rounds of the count. */
  lemma InTurnIff(counter: nat, count: nat)
    requires 0 < count <= SIZE_T && counter < SIZE_T
    ensures InTurn(counter, count) <==>
      counter + count < SIZE_T || counter == SIZE_T - 1 || SIZE_T % count == 0
  {
    if counter + count < SIZE_T || counter == SIZE_T - 1 || SIZE_T % count == 0 {
      forall j: nat, k: nat | 1 <= j < k <= count ensures Choice(counter, j, count) != Choice(counter, k, count) {
        TakesAnother(counter, count, j, k);
      }
    } else {
      var j, k := TakesAgain(counter, count);
    }
  }

  lemma TakesAnother(counter: nat, count: nat, j: nat, k: nat)
    requires counter < SIZE_T && 1 <= j < k <= count <= SIZE_T
    requires counter + count < SIZE_T || counter == SIZE_T - 1 || SIZE_T % count == 0
    ensures Choice(counter, j, count) != Choice(counter, k, count)
  {
    hide CounterAfter;
    CounterCounts(counter, j);
    CounterCounts(counter, k);
    if counter + k < SIZE_T || counter + j >= SIZE_T {
      NearDiffer(CounterAfter(counter, j), CounterAfter(counter, k), count);
    } else {
      WholeRounds(counter + k - SIZE_T, SIZE_T, count);
      NearDiffer(counter + j, counter + k, count);
    }
  }

  /** Otherwise some position comes twice. */
  lemma TakesAgain(counter: nat, count: nat) returns (j: nat, k: nat)
    requires counter < SIZE_T - 1 && 0 < count <= SIZE_T && counter + count >= SIZE_T && SIZE_T % count != 0
    ensures 1 <= j < k <= count && Choice(counter, j, count) == Choice(counter, k, count)
  {
    hide CounterAfter;
    DivMod(SIZE_T, count);
    var last, rest := counter + count - SIZE_T, SIZE_T % count;
    var position := if rest - 1 < last then rest - 1 else last;
    j, k := SIZE_T - (rest - position) - counter, SIZE_T + position - counter;
    CounterCounts(counter, j);
    CounterCounts(counter, k);
    RemainderBack(SIZE_T, count, rest - position);
    SmallRemainder(position, count);
  }

  /** In turn means each position once. */
  lemma EachOnce(counter: nat, count: nat, position: nat) returns (k: nat)
    requires position < count && counter + count < SIZE_T
    ensures 1 <= k <= count && Choice(counter, k, count) == position
    ensures forall j: nat :: 1 <= j <= count && Choice(counter, j, count) == position ==> j == k
  {
    InTurnIff(counter, count);
    DivMod(counter + 1, count);
    k := Reaches(counter, count, position, (counter + 1) / count, (counter + 1) % count);
    hide Choice;
  }

  lemma Reaches(counter: nat, count: nat, position: nat, q: nat, r: nat) returns (k: nat)
    requires position < count && counter + count < SIZE_T && r < count && counter + 1 == q * count + r
    ensures 1 <= k <= count && Choice(counter, k, count) == position
  {
    hide CounterAfter;
    k := if position >= r then position - r + 1 else position + count - r + 1;
    CounterCounts(counter, k);
    assert (q + 1) * count == q * count + count;
    ModUnique(counter + k, count, if position >= r then q else q + 1, position);
  }
}
