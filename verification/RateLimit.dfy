/** The rate limit of one topic: the counter in a fixed window, on values. */
module RateLimit {
  import opened Arithmetic
  import opened Options

  /** Values of a uint64_t. */
  const WORD := 0x1_0000_0000_0000_0000

  /** From the configuration; no maximum means no limit. */
  datatype TopicConf = TopicConf(interval: nat, maxCount: Option<nat>)

  datatype TopicState = TopicState(enable: bool, interval: nat, maxCount: nat, intervalStart: nat, count: nat)

  predicate ConfOk(conf: TopicConf) {
    0 < conf.interval < WORD
  }

  predicate StateOk(s: TopicState) {
    0 < s.interval < WORD && s.intervalStart < WORD
  }

  function FirstState(conf: TopicConf, timestamp: nat): TopicState {
    match conf.maxCount
    case None => TopicState(false, 1, 0, 0, 0)
    case Some(max) => TopicState(true, conf.interval, max, timestamp, 0)
  }

  /** The test that starts a new window, in 64-bit arithmetic. */
  predicate WindowOver(s: TopicState, timestamp: nat) {
    timestamp >= (s.intervalStart + s.interval) % WORD
  }

  function NextWindow(s: TopicState, timestamp: nat): TopicState
    requires StateOk(s)
  {
    var delta := ((timestamp - s.intervalStart) % WORD) / s.interval;
    s.(intervalStart := (s.intervalStart + delta * s.interval) % WORD, count := 0)
  }

  function Arrive(s: TopicState, timestamp: nat): (s': TopicState)
    requires StateOk(s)
    ensures StateOk(s') && s'.enable == s.enable && s'.interval == s.interval && s'.maxCount == s.maxCount
  {
    var s' := if WindowOver(s, timestamp) then NextWindow(s, timestamp) else s;
    s'.(count := s'.count + 1)
  }

  predicate Exceeds(s: TopicState) {
    s.enable && s.count > s.maxCount
  }

  /** The state after messages of one topic with the given timestamps. */
  function After(conf: TopicConf, times: seq<nat>): (s: TopicState)
    requires ConfOk(conf) && times != [] && forall i :: 0 <= i < |times| ==> times[i] < WORD
    ensures StateOk(s) && s.enable == conf.maxCount.Some?
    ensures conf.maxCount.Some? ==> s.interval == conf.interval && s.maxCount == conf.maxCount.value
  {
    var n := |times| - 1;
    if n == 0 then FirstState(conf, times[0]).(count := 1)
    else Arrive(After(conf, times[..n]), times[n])
  }

  ghost predicate TimesOk(times: seq<nat>) {
    forall i :: 0 <= i < |times| ==> times[i] < WORD
  }

  /** Whether message i is turned away. */
  ghost predicate Refused(conf: TopicConf, times: seq<nat>, i: nat)
    requires ConfOk(conf) && TimesOk(times) && i < |times|
  {
    Exceeds(After(conf, times[..i + 1]))
  }

  // --------------------------------------------------------- any timestamps whatsoever

  /** Whether message i opens a window. */
  ghost predicate Opens(conf: TopicConf, times: seq<nat>, i: nat)
    requires ConfOk(conf) && TimesOk(times) && i < |times|
  {
    i == 0 || WindowOver(After(conf, times[..i]), times[i])
  }

  /** The message that opened the window of message i. */
  ghost function Opener(conf: TopicConf, times: seq<nat>, i: nat): (o: nat)
    requires ConfOk(conf) && TimesOk(times) && i < |times|
    ensures o <= i && Opens(conf, times, o) && forall k :: o < k <= i ==> !Opens(conf, times, k)
  {
    if Opens(conf, times, i) then i else Opener(conf, times, i - 1)
  }

  lemma {:induction false} CountIsRank(conf: TopicConf, times: seq<nat>, i: nat)
    requires ConfOk(conf) && TimesOk(times) && i < |times|
    ensures After(conf, times[..i + 1]).count == i - Opener(conf, times, i) + 1
  {
    assert times[..i + 1][..i] == times[..i];
    if i > 0 && !Opens(conf, times, i) {
      CountIsRank(conf, times, i - 1);
    }
  }

  /** In every window, whatever the clock does, exactly the first maxCount messages are
      let through. */
  lemma RefusedIff(conf: TopicConf, times: seq<nat>, i: nat)
    requires ConfOk(conf) && TimesOk(times) && i < |times|
    ensures Refused(conf, times, i) <==> conf.maxCount.Some? && i - Opener(conf, times, i) >= conf.maxCount.value
  {
    CountIsRank(conf, times, i);
  }

  ghost function Admitted(conf: TopicConf, times: seq<nat>, lo: nat, hi: nat): nat
    requires ConfOk(conf) && TimesOk(times) && lo <= hi <= |times|
  {
    if lo == hi then 0
    else Admitted(conf, times, lo, hi - 1) + if Refused(conf, times, hi - 1) then 0 else 1
  }

  lemma {:induction false} AdmittedInWindow(conf: TopicConf, times: seq<nat>, lo: nat, hi: nat, opener: nat)
    requires ConfOk(conf) && TimesOk(times) && conf.maxCount.Some? && opener <= lo <= hi <= |times|
    requires forall i :: lo <= i < hi ==> Opener(conf, times, i) == opener
    ensures Admitted(conf, times, lo, hi) <= conf.maxCount.value
    ensures hi >= opener + conf.maxCount.value >= lo ==>
      Admitted(conf, times, lo, hi) == opener + conf.maxCount.value - lo
    ensures hi <= opener + conf.maxCount.value ==> Admitted(conf, times, lo, hi) == hi - lo
    ensures lo >= opener + conf.maxCount.value ==> Admitted(conf, times, lo, hi) == 0
  {
    if lo == hi {
    } else {
      AdmittedInWindow(conf, times, lo, hi - 1, opener);
      RefusedIff(conf, times, hi - 1);
    }
  }

  /** Between two resets of the counter at most maxCount messages get through. */
  lemma AtMostBetweenResets(conf: TopicConf, times: seq<nat>, lo: nat, hi: nat)
    requires ConfOk(conf) && TimesOk(times) && conf.maxCount.Some? && lo < hi <= |times|
    requires forall i :: lo < i < hi ==> !Opens(conf, times, i)
    ensures Admitted(conf, times, lo, hi) <= conf.maxCount.value
  {
    forall i | lo <= i < hi ensures Opener(conf, times, i) == Opener(conf, times, lo) {
      SameOpener(conf, times, lo, i);
    }
    AdmittedInWindow(conf, times, lo, hi, Opener(conf, times, lo));
  }

  lemma {:induction false} SameOpener(conf: TopicConf, times: seq<nat>, lo: nat, i: nat)
    requires ConfOk(conf) && TimesOk(times) && lo <= i < |times|
    requires forall k :: lo < k <= i ==> !Opens(conf, times, k)
    ensures Opener(conf, times, i) == Opener(conf, times, lo)
  {
  }

  // -------------------------------------------------------------- timestamps in order

  ghost predicate InOrder(times: seq<nat>) {
    forall i, j :: 0 <= i <= j < |times| ==> times[i] <= times[j]
  }

  /** Windows aligned to the first message. */
  ghost function Window(conf: TopicConf, times: seq<nat>, i: nat): int
    requires conf.interval > 0 && i < |times|
  {
    (times[i] - times[0]) / conf.interval
  }

  /** The window of message i ends at a number that the clock can say. */
  ghost predicate EndFits(conf: TopicConf, times: seq<nat>, i: nat)
    requires conf.interval > 0 && i < |times|
  {
    times[0] + Window(conf, times, i) * conf.interval + conf.interval < WORD
  }

  /** So do the windows of all messages before the n-th; these are the ones that the n-th
      message and the earlier ones are compared with. */
  ghost predicate FitsBefore(conf: TopicConf, times: seq<nat>, n: nat)
    requires conf.interval > 0 && n <= |times|
  {
    forall k :: 0 <= k < n ==> EndFits(conf, times, k)
  }

  /** The end of a window is judged rightly exactly when it is a number the clock can
      reach. */
  lemma WindowOverIff(s: TopicState, timestamp: nat)
    requires StateOk(s) && s.intervalStart <= timestamp < WORD
    ensures (WindowOver(s, timestamp) <==> timestamp >= s.intervalStart + s.interval) <==>
            s.intervalStart + s.interval < WORD
  {
  }

  /** With timestamps in order the windows stay aligned to the first message, and a message
      opens a window exactly when it is the first one in it. */
  lemma {:induction false} Aligned(conf: TopicConf, times: seq<nat>, i: nat)
    requires ConfOk(conf) && TimesOk(times) && InOrder(times) && conf.maxCount.Some?
    requires i < |times| && FitsBefore(conf, times, i)
    ensures Window(conf, times, i) >= 0
    ensures After(conf, times[..i + 1]).intervalStart == times[0] + Window(conf, times, i) * conf.interval <= times[i]
    ensures Opens(conf, times, i) <==> i == 0 || Window(conf, times, i) != Window(conf, times, i - 1)
    ensures i > 0 ==> Window(conf, times, i - 1) <= Window(conf, times, i)
  {
    assert times[..i + 1][..i] == times[..i];
    if i == 0 {
      assert Window(conf, times, 0) == 0;
    } else {
      Aligned(conf, times, i - 1);
      assert EndFits(conf, times, i - 1);
      AlignedStep(conf, After(conf, times[..i]), times[0], times[i], Window(conf, times, i - 1));
    }
  }

  /** Windows stay aligned for all of the messages if and only if none of them is compared
      with a window end that overflows. */
  lemma AlignedIff(conf: TopicConf, times: seq<nat>)
    requires ConfOk(conf) && TimesOk(times) && InOrder(times) && conf.maxCount.Some?
    ensures times == [] || FitsBefore(conf, times, |times| - 1) <==>
      forall i :: 0 <= i < |times| ==>
        (Opens(conf, times, i) <==> i == 0 || Window(conf, times, i) != Window(conf, times, i - 1))
  {
    if times == [] || FitsBefore(conf, times, |times| - 1) {
      forall i | 0 <= i < |times|
        ensures Opens(conf, times, i) <==> i == 0 || Window(conf, times, i) != Window(conf, times, i - 1)
      {
        Aligned(conf, times, i);
      }
    } else {
      var i :| 0 <= i < |times| - 1 && !EndFits(conf, times, i);
      var j := FirstOverflow(conf, times, i);
      Misaligned(conf, times, j);
    }
  }

  lemma {:induction false} FirstOverflow(conf: TopicConf, times: seq<nat>, i: nat) returns (j: nat)
    requires conf.interval > 0 && i < |times| && !EndFits(conf, times, i)
    ensures j <= i && !EndFits(conf, times, j) && FitsBefore(conf, times, j)
  {
    j := 0;
    while EndFits(conf, times, j)
      invariant j <= i && FitsBefore(conf, times, j)
      decreases i - j
    {
      j := j + 1;
    }
  }

  /** After an overflow the next message opens a window although it is in the old one. */
  lemma Misaligned(conf: TopicConf, times: seq<nat>, j: nat)
    requires ConfOk(conf) && TimesOk(times) && InOrder(times) && conf.maxCount.Some? && j + 1 < |times|
    requires !EndFits(conf, times, j) && FitsBefore(conf, times, j)
    ensures Opens(conf, times, j + 1) && Window(conf, times, j + 1) == Window(conf, times, j)
  {
    Aligned(conf, times, j);
    var s := After(conf, times[..j + 1]);
    WindowOverIff(s, times[j + 1]);
    WindowArithmetic(times[0], Window(conf, times, j), conf.interval, times[j + 1]);
  }

  lemma AlignedStep(conf: TopicConf, s: TopicState, first: nat, timestamp: nat, w: nat)
    requires ConfOk(conf) && StateOk(s) && s.interval == conf.interval && timestamp < WORD
    requires s.intervalStart == first + w * conf.interval <= timestamp && s.intervalStart + conf.interval < WORD
    ensures var w' := (timestamp - first) / conf.interval;
      && w' >= w && (WindowOver(s, timestamp) <==> w' != w)
      && Arrive(s, timestamp).intervalStart == first + w' * conf.interval <= timestamp
  {
    hide ConfOk;
    var past := timestamp - s.intervalStart;
    var delta := past / conf.interval;
    WindowArithmetic(first, w, conf.interval, timestamp);
    assert (s.intervalStart + s.interval) % WORD == s.intervalStart + s.interval;
    assert past % WORD == past;
    assert (s.intervalStart + delta * conf.interval) % WORD == s.intervalStart + delta * conf.interval;
  }

  lemma WindowArithmetic(first: nat, w: nat, interval: nat, timestamp: nat)
    requires interval > 0 && first + w * interval <= timestamp
    ensures var past := timestamp - (first + w * interval);
      var delta := past / interval;
      && (timestamp - first) / interval == w + delta
      && first + (w + delta) * interval == first + w * interval + delta * interval <= timestamp
      && (delta == 0 <==> past < interval)
  {
    var past := timestamp - (first + w * interval);
    var delta := past / interval;
    assert past == delta * interval + past % interval;
    DivAdd(w, interval, past);
    assert (w + delta) * interval == w * interval + delta * interval;
    if past < interval {
      DivUnique(past, interval, 0, past);
    }
  }

  // ------------------------------------------------------------------- sliding windows

  /** Messages of one aligned window are consecutive and share their opener. */
  lemma {:induction false} OpenerOfWindow(conf: TopicConf, times: seq<nat>, lo: nat, i: nat)
    requires ConfOk(conf) && TimesOk(times) && InOrder(times) && conf.maxCount.Some?
    requires lo <= i < |times| && Window(conf, times, lo) == Window(conf, times, i)
    requires FitsBefore(conf, times, i)
    ensures Opener(conf, times, i) == Opener(conf, times, lo)
    decreases i
  {
    if lo == i {
    } else {
      Aligned(conf, times, i);
      Increasing(conf, times, lo, i - 1);
      OpenerOfWindow(conf, times, lo, i - 1);
    }
  }

  lemma {:induction false} Increasing(conf: TopicConf, times: seq<nat>, lo: nat, i: nat)
    requires ConfOk(conf) && TimesOk(times) && InOrder(times) && conf.maxCount.Some?
    requires lo <= i < |times|
    requires FitsBefore(conf, times, i)
    ensures Window(conf, times, lo) <= Window(conf, times, i)
    decreases i
  {
    if lo == i {
    } else {
      Aligned(conf, times, i);
      Increasing(conf, times, lo, i - 1);
    }
  }

  /** How many earlier messages are in the same aligned window. */
  ghost function EarlierInWindow(conf: TopicConf, times: seq<nat>, i: nat, n: nat): nat
    requires conf.interval > 0 && n <= i < |times|
  {
    if n == 0 then 0
    else EarlierInWindow(conf, times, i, n - 1) + if Window(conf, times, n - 1) == Window(conf, times, i) then 1 else 0
  }

  /** With timestamps in order, a message is refused exactly when its aligned window has
      seen maxCount messages already; but once a window end has overflowed, only if
      nothing is to be let through at all. */
  lemma RefusedInOrder(conf: TopicConf, times: seq<nat>, i: nat)
    requires ConfOk(conf) && TimesOk(times) && InOrder(times) && conf.maxCount.Some? && i < |times|
    ensures Refused(conf, times, i) <==>
      if FitsBefore(conf, times, i) then EarlierInWindow(conf, times, i, i) >= conf.maxCount.value
      else conf.maxCount.value == 0
  {
    if FitsBefore(conf, times, i) {
      RefusedIff(conf, times, i);
      RankInWindow(conf, times, i, i);
    } else {
      OverflowAdmitsAll(conf, times, i);
    }
  }

  lemma {:induction false} RankInWindow(conf: TopicConf, times: seq<nat>, i: nat, n: nat)
    requires ConfOk(conf) && TimesOk(times) && InOrder(times) && conf.maxCount.Some?
    requires n <= i < |times|
    requires FitsBefore(conf, times, i)
    ensures var o := Opener(conf, times, i);
      EarlierInWindow(conf, times, i, n) == if n <= o then 0 else n - o
    decreases n
  {
    if n == 0 {
    } else {
      RankInWindow(conf, times, i, n - 1);
      SameWindowIff(conf, times, n - 1, i);
    }
  }

  lemma SameWindowIff(conf: TopicConf, times: seq<nat>, k: nat, i: nat)
    requires ConfOk(conf) && TimesOk(times) && InOrder(times) && conf.maxCount.Some?
    requires k <= i < |times|
    requires FitsBefore(conf, times, i)
    ensures Window(conf, times, k) == Window(conf, times, i) <==> k >= Opener(conf, times, i)
  {
    var o := Opener(conf, times, i);
    if Window(conf, times, k) == Window(conf, times, i) {
      OpenerOfWindow(conf, times, k, i);
    } else if k >= o {
      NoOpening(conf, times, k, i);
    }
  }

  lemma {:induction false} NoOpening(conf: TopicConf, times: seq<nat>, k: nat, i: nat)
    requires ConfOk(conf) && TimesOk(times) && InOrder(times) && conf.maxCount.Some?
    requires k <= i < |times| && forall j :: k < j <= i ==> !Opens(conf, times, j)
    requires FitsBefore(conf, times, i)
    ensures Window(conf, times, k) == Window(conf, times, i)
    decreases i
  {
    if k == i {
    } else {
      Aligned(conf, times, i);
      NoOpening(conf, times, k, i - 1);
    }
  }

  /** The last message of the window of lo, up to hi. */
  ghost function WindowEnd(conf: TopicConf, times: seq<nat>, lo: nat, hi: nat): (m: nat)
    requires conf.interval > 0 && lo < hi <= |times|
    ensures lo < m <= hi && (m < hi ==> Window(conf, times, m) != Window(conf, times, lo))
    ensures forall i :: lo <= i < m ==> Window(conf, times, i) == Window(conf, times, lo)
    decreases hi - lo
  {
    FirstOther(conf, times, lo, lo + 1, hi)
  }

  ghost function FirstOther(conf: TopicConf, times: seq<nat>, lo: nat, from: nat, hi: nat): (m: nat)
    requires conf.interval > 0 && lo < from <= hi <= |times|
    requires forall i :: lo <= i < from ==> Window(conf, times, i) == Window(conf, times, lo)
    ensures from <= m <= hi && (m < hi ==> Window(conf, times, m) != Window(conf, times, lo))
    ensures forall i :: lo <= i < m ==> Window(conf, times, i) == Window(conf, times, lo)
    decreases hi - from
  {
    if from == hi || Window(conf, times, from) != Window(conf, times, lo) then from
    else FirstOther(conf, times, lo, from + 1, hi)
  }

  lemma {:induction false} AdmittedSplit(conf: TopicConf, times: seq<nat>, lo: nat, m: nat, hi: nat)
    requires ConfOk(conf) && TimesOk(times) && lo <= m <= hi <= |times|
    ensures Admitted(conf, times, lo, hi) == Admitted(conf, times, lo, m) + Admitted(conf, times, m, hi)
    decreases hi
  {
    if m == hi {
    } else {
      AdmittedSplit(conf, times, lo, m, hi - 1);
    }
  }

  lemma OneWindowAdmits(conf: TopicConf, times: seq<nat>, lo: nat, hi: nat)
    requires ConfOk(conf) && TimesOk(times) && InOrder(times) && conf.maxCount.Some?
    requires lo < hi <= |times|
    requires FitsBefore(conf, times, hi - 1)
    requires forall i :: lo <= i < hi ==> Window(conf, times, i) == Window(conf, times, lo)
    ensures Admitted(conf, times, lo, hi) <= conf.maxCount.value
  {
    forall i | lo <= i < hi ensures Opener(conf, times, i) == Opener(conf, times, lo) {
      OpenerOfWindow(conf, times, lo, i);
    }
    AdmittedInWindow(conf, times, lo, hi, Opener(conf, times, lo));
  }

  /** With timestamps in order, any span of one interval lets through at most twice
      maxCount messages. */
  lemma AtMostTwice(conf: TopicConf, times: seq<nat>, lo: nat, hi: nat)
    requires ConfOk(conf) && TimesOk(times) && InOrder(times) && conf.maxCount.Some?
    requires lo <= hi <= |times|
    requires lo < hi ==> FitsBefore(conf, times, hi - 1)
    requires lo < hi ==> times[hi - 1] < times[lo] + conf.interval
    ensures Admitted(conf, times, lo, hi) <= 2 * conf.maxCount.value
  {
    if lo < hi {
      hide Admitted, Opener;
      var m := WindowEnd(conf, times, lo, hi);
      AdmittedSplit(conf, times, lo, m, hi);
      OneWindowAdmits(conf, times, lo, m);
      if m < hi {
        forall i | m <= i < hi ensures Window(conf, times, i) == Window(conf, times, m) {
          TwoWindows(conf, times, lo, m, i);
        }
        OneWindowAdmits(conf, times, m, hi);
      } else {
        assert Admitted(conf, times, hi, hi) == 0 by { NoneAdmitted(conf, times, hi); }
      }
    }
  }

  lemma NoneAdmitted(conf: TopicConf, times: seq<nat>, n: nat)
    requires ConfOk(conf) && TimesOk(times) && n <= |times|
    ensures Admitted(conf, times, n, n) == 0
  {
  }

  lemma TwoWindows(conf: TopicConf, times: seq<nat>, lo: nat, m: nat, i: nat)
    requires ConfOk(conf) && TimesOk(times) && InOrder(times) && conf.maxCount.Some?
    requires lo <= m <= i < |times| && times[i] < times[lo] + conf.interval
    requires FitsBefore(conf, times, i)
    requires Window(conf, times, lo) != Window(conf, times, m)
    ensures Window(conf, times, i) == Window(conf, times, m)
  {
    Increasing(conf, times, lo, m);
    Increasing(conf, times, m, i);
    DivAdd(1, conf.interval, times[lo] - times[0]);
    DivMono(times[i] - times[0], conf.interval + (times[lo] - times[0]), conf.interval);
  }

  lemma DivMono(a: nat, b: nat, d: nat)
    requires a <= b && d > 0
    ensures a / d <= b / d
  {
    if a / d > b / d {
      MulStep(b / d, a / d, d);
    }
  }

  // --------------------------------------------------------------------------- overflow

  /** After the first window end that overflows the limit is lost: every message opens a
      window of its own, without moving its start, and is let through. */
  lemma OverflowAdmitsAll(conf: TopicConf, times: seq<nat>, i: nat)
    requires ConfOk(conf) && TimesOk(times) && InOrder(times) && conf.maxCount.Some?
    requires i < |times| && !FitsBefore(conf, times, i)
    ensures After(conf, times[..i + 1]).count == 1
    ensures Refused(conf, times, i) <==> conf.maxCount.value == 0
  {
    var k :| 0 <= k < i && !EndFits(conf, times, k);
    var j := FirstOverflow(conf, times, k);
    Stuck(conf, times, j, i);
  }

  lemma {:induction false} Stuck(conf: TopicConf, times: seq<nat>, j: nat, i: nat)
    requires ConfOk(conf) && TimesOk(times) && InOrder(times) && conf.maxCount.Some? && j < i < |times|
    requires FitsBefore(conf, times, j) && !EndFits(conf, times, j)
    ensures var s := After(conf, times[..i + 1]);
      s.intervalStart == times[0] + Window(conf, times, j) * conf.interval <= times[i] && s.count == 1
    decreases i
  {
    assert times[..i + 1][..i] == times[..i];
    if i == j + 1 {
      Aligned(conf, times, j);
    } else {
      Stuck(conf, times, j, i - 1);
    }
    OverflowStep(After(conf, times[..i]), times[i]);
  }

  lemma OverflowStep(s: TopicState, timestamp: nat)
    requires StateOk(s) && s.intervalStart + s.interval >= WORD && s.intervalStart <= timestamp < WORD
    ensures Arrive(s, timestamp) == s.(count := 1)
  {
    var past := timestamp - s.intervalStart;
    assert (s.intervalStart + s.interval) % WORD == s.intervalStart + s.interval - WORD;
    assert past % WORD == past;
    DivUnique(past, s.interval, 0, past);
  }

  /** Every span of one interval lets through at most twice maxCount messages. */
  ghost predicate BoundKept(conf: TopicConf, times: seq<nat>)
    requires ConfOk(conf) && TimesOk(times) && conf.maxCount.Some?
  {
    forall lo, hi :: 0 <= lo < hi <= |times| && times[hi - 1] < times[lo] + conf.interval ==>
      Admitted(conf, times, lo, hi) <= 2 * conf.maxCount.value
  }

  /** The messages so far, and then n more at the time of the last one. */
  function Repeated(times: seq<nat>, n: nat): (r: seq<nat>)
    requires times != []
    ensures |r| == |times| + n
  {
    times + seq(n, _ => times[|times| - 1])
  }

  lemma RepeatedOk(conf: TopicConf, times: seq<nat>, n: nat)
    requires ConfOk(conf) && TimesOk(times) && InOrder(times) && times != []
    ensures TimesOk(Repeated(times, n)) && InOrder(Repeated(times, n))
    ensures forall i :: 0 <= i < |Repeated(times, n)| ==>
      var k := if i < |times| then i else |times| - 1;
      Repeated(times, n)[i] == times[k] && (EndFits(conf, Repeated(times, n), i) <==> EndFits(conf, times, k))
  {
  }

  lemma StartsInOrder(a: nat, b: nat, d: nat)
    requires a <= b && d > 0
    ensures a / d * d <= b / d * d
  {
    DivMono(a, b, d);
    if a / d < b / d {
      MulStep(a / d, b / d, d);
    }
  }

  /** A window end that fits leaves room for all the earlier ones. */
  lemma EndsInOrder(conf: TopicConf, times: seq<nat>, i: nat)
    requires ConfOk(conf) && TimesOk(times) && InOrder(times) && i < |times|
    ensures EndFits(conf, times, i) ==> FitsBefore(conf, times, i)
  {
    forall k | 0 <= k < i && EndFits(conf, times, i) ensures EndFits(conf, times, k) {
      StartsInOrder(times[k] - times[0], times[i] - times[0], conf.interval);
    }
  }

  /** With timestamps in order the bound is kept, however many messages follow at the time
      of the last one, if and only if the last window ends at a number the clock can
      say. */
  lemma AtMostTwiceIff(conf: TopicConf, times: seq<nat>)
    requires ConfOk(conf) && TimesOk(times) && InOrder(times) && times != []
    requires conf.maxCount.Some? && conf.maxCount.value > 0
    ensures forall n: nat :: TimesOk(Repeated(times, n))
    ensures EndFits(conf, times, |times| - 1) <==> forall n: nat :: BoundKept(conf, Repeated(times, n))
  {
    forall n: nat ensures TimesOk(Repeated(times, n)) {
      RepeatedOk(conf, times, n);
    }
    if EndFits(conf, times, |times| - 1) {
      forall n: nat ensures BoundKept(conf, Repeated(times, n)) {
        FittingKeeps(conf, times, n);
      }
    } else {
      TwiceBroken(conf, times);
    }
  }

  lemma FittingKeeps(conf: TopicConf, times: seq<nat>, n: nat)
    requires ConfOk(conf) && TimesOk(times) && InOrder(times) && times != [] && conf.maxCount.Some?
    requires EndFits(conf, times, |times| - 1)
    ensures TimesOk(Repeated(times, n)) && BoundKept(conf, Repeated(times, n))
  {
    hide Admitted;
    RepeatedOk(conf, times, n);
    EndsInOrder(conf, times, |times| - 1);
    var all := Repeated(times, n);
    forall lo, hi | 0 <= lo < hi <= |all| && all[hi - 1] < all[lo] + conf.interval
      ensures Admitted(conf, all, lo, hi) <= 2 * conf.maxCount.value
    {
      AtMostTwice(conf, all, lo, hi);
    }
  }

  lemma TwiceBroken(conf: TopicConf, times: seq<nat>)
    requires ConfOk(conf) && TimesOk(times) && InOrder(times) && times != []
    requires conf.maxCount.Some? && conf.maxCount.value > 0 && !EndFits(conf, times, |times| - 1)
    ensures var all := Repeated(times, 2 * conf.maxCount.value + 1);
      TimesOk(all) && !BoundKept(conf, all)
  {
    var n := 2 * conf.maxCount.value + 1;
    var all := Repeated(times, n);
    RepeatedOk(conf, times, n);
    assert !EndFits(conf, all, |times| - 1);
    AllAdmitted(conf, all, |times|, |all|);
    assert all[|all| - 1] < all[|times|] + conf.interval;
  }

  lemma {:induction false} AllAdmitted(conf: TopicConf, times: seq<nat>, lo: nat, hi: nat)
    requires ConfOk(conf) && TimesOk(times) && InOrder(times) && lo <= hi <= |times|
    requires conf.maxCount.Some? && conf.maxCount.value > 0 && !FitsBefore(conf, times, lo)
    ensures Admitted(conf, times, lo, hi) == hi - lo
    decreases hi
  {
    if lo == hi {
    } else {
      AllAdmitted(conf, times, lo, hi - 1);
      OverflowAdmitsAll(conf, times, hi - 1);
    }
  }
}
