/** The anomaly tracker: reports per period under an arbitrary clock. */
module AnomalyTracker {
  import opened AnomalyReports
  import opened Arithmetic
  import opened Options
  import opened RecentItems
  import opened Sorting

  /** An event and the reporting period that it counts for. */
  datatype Entry = Entry(period: nat, event: Event)

  ghost function EventsIn(history: seq<Entry>, period: nat): seq<Event> {
    if history == [] then []
    else
      var n := |history| - 1;
      EventsIn(history[..n], period) + if history[n].period == period then [history[n].event] else []
  }

  /** The period a time belongs to; times before the start belong to the first one. */
  function PeriodOf(start: nat, interval: nat, now: nat): nat {
    if interval == 0 || now < start then 0 else (now - start) / interval
  }

  function StartOf(start: nat, interval: nat, period: nat): nat {
    start + period * interval
  }

  /** The latest period that the clock has shown. */
  /** A reading of the clock lies in its period. */
  lemma PeriodBounds(start: nat, interval: nat, now: nat)
    requires interval > 0 && now >= start
    ensures var from := StartOf(start, interval, PeriodOf(start, interval, now));
      from <= now < from + interval
  {
    DivMod(now - start, interval);
  }

  ghost function LatestPeriod(start: nat, interval: nat, clock: seq<nat>): nat {
    if clock == [] then 0
    else
      var before, now := LatestPeriod(start, interval, clock[..|clock| - 1]),
        PeriodOf(start, interval, clock[|clock| - 1]);
      if now > before then now else before
  }

  /** The list after one more item was seen. */
  method UpdateLruList(s: string, list: seq<string>, maxListSize: nat) returns (list': seq<string>)
    requires NoDuplicates(list) && |list| <= maxListSize
    ensures list' == Touched(list, s, maxListSize)
  {
    var k := 0;
    while k < |list| && list[k] != s
      invariant k <= |list| && s !in list[..k]
    {
      k := k + 1;
    }
    if k == |list| {
      assert list[..k] == list;
      list' := [s] + list;
      if |list'| > maxListSize {
        list' := list'[..|list'| - 1];
      }
    } else {
      ExceptOne(list, s, k);
      list' := [s] + (list[..k] + list[k + 1..]);
    }
  }

  method UpdateTopicMap(topicMap: map<string, TopicInfo>, topic: string, timestamp: int)
    returns (m: map<string, TopicInfo>)
    ensures m == AddTime(topicMap, topic, timestamp)
  {
    if topic !in topicMap {
      return topicMap[topic := TopicInfo(timestamp, timestamp, 1)];
    }
    var info := topicMap[topic];
    info := info.(count := info.count + 1);
    if timestamp < info.first {
      info := info.(first := timestamp);
    } else if info.last < timestamp {
      info := info.(last := timestamp);
    }
    m := topicMap[topic := info];
  }

  class AnomalyTracker {
    const reportInterval: nat
    const maxMsgPrefixLen: nat

    var fillingReport: Info
    var lastFullReport: Option<Info>

    /** When the tracker started, every clock reading since, and every event with the
        period it was filed under. */
    ghost const start: nat
    ghost var clock: seq<nat>
    ghost var history: seq<Entry>

    ghost function Period(): nat
      reads this
    {
      LatestPeriod(start, reportInterval, clock)
    }

    /** The report of a period, from the events filed under it. */
    ghost function ReportOf(period: nat): Info
      reads this
    {
      Report(period, StartOf(start, reportInterval, period), EventsIn(history, period), maxMsgPrefixLen)
    }

    /** The filling report is that of the latest period shown by the clock, the last full
        report that of the period before, and both hold exactly the events of their
        period. */
    ghost predicate Valid()
      reads this
    {
      && fillingReport == ReportOf(Period())
      && lastFullReport == (if Period() == 0 then None else Some(ReportOf(Period() - 1)))
      && forall i :: 0 <= i < |history| ==> history[i].period <= Period()
    }

    constructor (interval: nat, maxPrefixLen: nat, now: nat)
      ensures Valid() && clock == [] && history == [] && start == now && reportInterval == interval
    {
      reportInterval, maxMsgPrefixLen := interval, maxPrefixLen;
      fillingReport, lastFullReport := EmptyInfo(0, now), None;
      start, clock, history := now, [], [];
    }

    method AdvanceReportPeriod(now: nat)
      requires Valid()
      modifies `fillingReport, `lastFullReport, `clock
      ensures Valid() && clock == old(clock) + [now]
    {
      hide Report, EventsIn, LatestPeriod, StartOf, PeriodOf;
      ghost var before := Period();
      ClockStep(start, reportInterval, clock, now);
      ReportHeader(before, StartOf(start, reportInterval, before), EventsIn(history, before), maxMsgPrefixLen);
      clock := clock + [now];
      if reportInterval == 0 {
        return;
      }
      var currentId, currentStart := fillingReport.reportId, fillingReport.startTime;
      var nowOffset := if now >= currentStart then now - currentStart else 0;
      var periodOffset := nowOffset / reportInterval;
      PeriodStep(start, reportInterval, before, now, periodOffset);
      assert Period() == before + periodOffset;
      if periodOffset == 1 {
        NoneYet(history, before + 1, StartOf(start, reportInterval, before + 1), maxMsgPrefixLen);
        lastFullReport := Some(fillingReport);
        fillingReport := EmptyInfo(currentId + 1, currentStart + reportInterval);
      } else if periodOffset > 1 {
        var prevPeriodOffset := periodOffset - 1;
        var prevId := currentId + prevPeriodOffset;
        var prevStart := currentStart + prevPeriodOffset * reportInterval;
        NoneYet(history, prevId, StartOf(start, reportInterval, prevId), maxMsgPrefixLen);
        NoneYet(history, prevId + 1, StartOf(start, reportInterval, prevId + 1), maxMsgPrefixLen);
        lastFullReport := Some(EmptyInfo(prevId, prevStart));
        fillingReport := EmptyInfo(prevId + 1, prevStart + reportInterval);
      }
    }

    function EnforceMaxPrefixLen(msg: string): (prefix: string)
      ensures prefix == Prefix(msg, maxMsgPrefixLen)
    {
      msg[..if |msg| < maxMsgPrefixLen then |msg| else maxMsgPrefixLen]
    }

    /** The Track functions: the event is filed under the period that the clock has
        reached. */
    method Track(now: nat, e: Event)
      requires Valid()
      modifies `fillingReport, `lastFullReport, `clock, `history
      ensures Valid() && clock == old(clock) + [now]
      ensures history == old(history) + [Entry(Period(), e)]
    {
      hide Report, EventsIn, LatestPeriod, StartOf, Touched, AddTime;
      AdvanceReportPeriod(now);
      ghost var p := Period();
      forall k ensures NoDuplicates(ListOf(fillingReport, k)) && |ListOf(fillingReport, k)| <= MAX_ITEMS {
        ListsFit(p, StartOf(start, reportInterval, p), EventsIn(history, p), maxMsgPrefixLen, k);
      }
      var r := fillingReport;
      FillIn(e);
      assert fillingReport == Record(r, e, maxMsgPrefixLen);
      FileEvent(history, p, e, StartOf(start, reportInterval, p), maxMsgPrefixLen);
      history := history + [Entry(p, e)];
    }

    /** The filling report takes in the event. */
    method FillIn(e: Event)
      requires forall k :: NoDuplicates(ListOf(fillingReport, k)) && |ListOf(fillingReport, k)| <= MAX_ITEMS
      modifies `fillingReport
      ensures fillingReport == Record(old(fillingReport), e, maxMsgPrefixLen)
    {
      hide Touched, AddTime, NoDuplicates, Prefix;
      var r := fillingReport;
      match e {
        case Discard(topic, ts, rateLimit) =>
          var m := UpdateTopicMap(r.discardTopics, topic, ts);
          fillingReport := r.(discardTopics := m);
          if rateLimit {
            var rmap := r.rateLimitDiscards;
            rmap := rmap[topic := if topic !in rmap then 1 else rmap[topic] + 1];
            fillingReport := fillingReport.(rateLimitDiscards := rmap);
          }
        case Duplicate(topic, ts) =>
          var m := UpdateTopicMap(r.duplicateTopics, topic, ts);
          fillingReport := r.(duplicateTopics := m);
        case NoMemDiscard(topic, ts) =>
          var m := UpdateTopicMap(r.discardTopics, topic, ts);
          fillingReport := r.(discardTopics := m);
        case MalformedMsg(msg) =>
          assert ListOf(r, Malformed) == r.malformedMsgs;
          var list := UpdateLruList(EnforceMaxPrefixLen(msg), r.malformedMsgs, MAX_ITEMS);
          fillingReport := r.(malformedCount := r.malformedCount + 1, malformedMsgs := list);
        case UncleanDisconnect(isTcp, msg) =>
          assert ListOf(r, TcpUnclean) == r.tcpUncleanMsgs && ListOf(r, UnixUnclean) == r.unixUncleanMsgs;
          var list := if isTcp then r.tcpUncleanMsgs else r.unixUncleanMsgs;
          list := UpdateLruList(EnforceMaxPrefixLen(msg), list, MAX_ITEMS);
          fillingReport :=
            if isTcp then r.(tcpUncleanCount := r.tcpUncleanCount + 1, tcpUncleanMsgs := list)
            else r.(unixUncleanCount := r.unixUncleanCount + 1, unixUncleanMsgs := list);
        case UnsupportedApiKey =>
          fillingReport := r.(unsupportedApiKeyCount := r.unsupportedApiKeyCount + 1);
        case UnsupportedVersion(version) =>
          var m := r.unsupportedVersions;
          fillingReport := r.(
            unsupportedVersionCount := r.unsupportedVersionCount + 1,
            unsupportedVersions := if version !in m then m[version := 1] else m[version := m[version] + 1]);
        case BadTopic(topic) =>
          assert ListOf(r, BadTopics) == r.badTopics;
          var list := UpdateLruList(topic, r.badTopics, MAX_ITEMS);
          fillingReport := r.(badTopicCount := r.badTopicCount + 1, badTopics := list);
        case LongMsg(topic, value, ts) =>
          assert ListOf(r, Long) == r.longMsgs;
          var list := UpdateLruList(EnforceMaxPrefixLen(LongText(topic, value)), r.longMsgs, MAX_ITEMS);
          var m := UpdateTopicMap(r.discardTopics, topic, ts);
          fillingReport := r.(longMsgs := list, discardTopics := m);
      }
    }

    /** A query for the reports. */
    method GetInfo(now: nat) returns (filling: Info, lastFull: Option<Info>)
      requires Valid()
      modifies `fillingReport, `lastFullReport, `clock
      ensures Valid() && clock == old(clock) + [now]
      ensures filling == ReportOf(Period())
      ensures lastFull == if Period() == 0 then None else Some(ReportOf(Period() - 1))
    {
      hide Report, EventsIn, LatestPeriod, StartOf;
      AdvanceReportPeriod(now);
      filling, lastFull := fillingReport, lastFullReport;
    }
  }

  /** One more event, filed under a period. */
  lemma FileEvent(history: seq<Entry>, p: nat, e: Event, start: nat, maxPrefix: nat)
    ensures var history' := history + [Entry(p, e)];
      && Report(p, start, EventsIn(history', p), maxPrefix) ==
        Record(Report(p, start, EventsIn(history, p), maxPrefix), e, maxPrefix)
      && forall q :: q != p ==> EventsIn(history', q) == EventsIn(history, q)
  {
  }

  /** The filling period is the latest one of any clock reading, so it never goes back. */
  lemma {:induction false} LatestIsMax(start: nat, interval: nat, clock: seq<nat>)
    ensures forall i :: 0 <= i < |clock| ==> PeriodOf(start, interval, clock[i]) <= LatestPeriod(start, interval, clock)
    ensures LatestPeriod(start, interval, clock) == 0 ||
      exists i :: 0 <= i < |clock| && PeriodOf(start, interval, clock[i]) == LatestPeriod(start, interval, clock)
  {
    if clock == [] {
    } else {
      hide PeriodOf;
      var n := |clock| - 1;
      LatestIsMax(start, interval, clock[..n]);
      assert forall i :: 0 <= i < n ==> clock[..n][i] == clock[i];
    }
  }

  lemma ClockStep(start: nat, interval: nat, clock: seq<nat>, now: nat)
    ensures var before, p := LatestPeriod(start, interval, clock), PeriodOf(start, interval, now);
      LatestPeriod(start, interval, clock + [now]) == if p > before then p else before
    ensures interval == 0 ==> LatestPeriod(start, interval, clock + [now]) == LatestPeriod(start, interval, clock)
  {
  }

  /** Whole periods past the start of the current one, whichever way the clock went. */
  lemma PeriodStep(start: nat, interval: nat, before: nat, now: nat, offset: nat)
    requires interval > 0
    requires var current := StartOf(start, interval, before);
      offset == (if now >= current then now - current else 0) / interval
    ensures var p := PeriodOf(start, interval, now);
      (if p > before then p else before) == before + offset
    ensures var current := StartOf(start, interval, before);
      && (offset == 1 ==> StartOf(start, interval, before + 1) == current + interval)
      && (offset > 1 ==>
          && StartOf(start, interval, before + (offset - 1)) == current + (offset - 1) * interval
          && StartOf(start, interval, before + (offset - 1) + 1) == current + (offset - 1) * interval + interval)
  {
    var current := start + before * interval;
    Distribute(before, offset, interval);
    if now >= current {
      DivAdd(before, interval, now - current);
    } else if now >= start {
      var p := (now - start) / interval;
      if p >= before { MulStep(before, p + 1, interval); }
    }
  }

  lemma Distribute(a: nat, b: nat, c: nat)
    ensures (a + b) * c == a * c + b * c
    ensures b > 0 ==> (a + b - 1) * c == a * c + (b - 1) * c && (b - 1) * c + c == b * c
  {
  }

  lemma NoneYet(history: seq<Entry>, period: nat, start: nat, maxPrefix: nat)
    requires forall i :: 0 <= i < |history| ==> history[i].period < period
    ensures EventsIn(history, period) == []
    ensures Report(period, start, EventsIn(history, period), maxPrefix) == EmptyInfo(period, start)
  {
    if history != [] {
      NoneYet(history[..|history| - 1], period, start, maxPrefix);
    }
  }
}
