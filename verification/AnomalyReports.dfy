/** What a discard report says about the events of its period. */
module AnomalyReports {
  import opened Options
  import opened RecentItems
  import opened Sorting

  /** The cap of every list of recent items. */
  const MAX_ITEMS := 25

  datatype Event =
    | Discard(topic: string, timestamp: int, rateLimit: bool)
    | Duplicate(topic: string, timestamp: int)
    | NoMemDiscard(topic: string, timestamp: int)
    | MalformedMsg(msg: string)
    | UncleanDisconnect(isTcp: bool, msg: string)
    | UnsupportedApiKey
    | UnsupportedVersion(version: int)
    | BadTopic(topic: string)
    | LongMsg(topic: string, value: string, timestamp: int)

  /** Earliest and latest timestamp, and number, of a topic's anomalies. */
  datatype TopicInfo = TopicInfo(first: int, last: int, count: nat)

  datatype Info = Info(
    reportId: nat,
    startTime: nat,
    discardTopics: map<string, TopicInfo>,
    duplicateTopics: map<string, TopicInfo>,
    rateLimitDiscards: map<string, nat>,
    malformedMsgs: seq<string>,
    unixUncleanMsgs: seq<string>,
    tcpUncleanMsgs: seq<string>,
    unsupportedVersions: map<int, nat>,
    longMsgs: seq<string>,
    badTopics: seq<string>,
    malformedCount: nat,
    unixUncleanCount: nat,
    tcpUncleanCount: nat,
    unsupportedApiKeyCount: nat,
    unsupportedVersionCount: nat,
    badTopicCount: nat)

  function EmptyInfo(id: nat, start: nat): Info {
    Info(id, start, map[], map[], map[], [], [], [], map[], [], [], 0, 0, 0, 0, 0, 0)
  }

  function AddTime(m: map<string, TopicInfo>, topic: string, timestamp: int): map<string, TopicInfo> {
    if topic !in m then m[topic := TopicInfo(timestamp, timestamp, 1)]
    else
      var info := m[topic];
      m[topic := TopicInfo(
          if timestamp < info.first then timestamp else info.first,
          if timestamp >= info.first && info.last < timestamp then timestamp else info.last,
          info.count + 1)]
  }

  function AddOne<K>(m: map<K, nat>, k: K): map<K, nat> {
    m[k := if k in m then m[k] + 1 else 1]
  }

  function Prefix(s: string, max: nat): string {
    if |s| <= max then s else s[..max]
  }

  function LongText(topic: string, value: string): string {
    topic + " " + value
  }

  lemma PrefixIs(s: string, max: nat)
    ensures Prefix(s, max) <= s && |Prefix(s, max)| == if |s| < max then |s| else max
  {
  }

  /** Topic and value, with a space between them. */
  lemma LongTextIs(topic: string, value: string)
    ensures var text := LongText(topic, value);
      text[..|topic|] == topic && text[|topic|] == ' ' && text[|topic| + 1..] == value
  {
  }

  /** The report with one more event. */
  function Record(r: Info, e: Event, maxPrefix: nat): Info {
    match e
    case Discard(topic, ts, rateLimit) =>
      r.(discardTopics := AddTime(r.discardTopics, topic, ts),
         rateLimitDiscards := if rateLimit then AddOne(r.rateLimitDiscards, topic) else r.rateLimitDiscards)
    case Duplicate(topic, ts) => r.(duplicateTopics := AddTime(r.duplicateTopics, topic, ts))
    case NoMemDiscard(topic, ts) => r.(discardTopics := AddTime(r.discardTopics, topic, ts))
    case MalformedMsg(msg) =>
      r.(malformedCount := r.malformedCount + 1,
         malformedMsgs := Touched(r.malformedMsgs, Prefix(msg, maxPrefix), MAX_ITEMS))
    case UncleanDisconnect(isTcp, msg) =>
      if isTcp then
        r.(tcpUncleanCount := r.tcpUncleanCount + 1,
           tcpUncleanMsgs := Touched(r.tcpUncleanMsgs, Prefix(msg, maxPrefix), MAX_ITEMS))
      else
        r.(unixUncleanCount := r.unixUncleanCount + 1,
           unixUncleanMsgs := Touched(r.unixUncleanMsgs, Prefix(msg, maxPrefix), MAX_ITEMS))
    case UnsupportedApiKey => r.(unsupportedApiKeyCount := r.unsupportedApiKeyCount + 1)
    case UnsupportedVersion(version) =>
      r.(unsupportedVersionCount := r.unsupportedVersionCount + 1,
         unsupportedVersions := AddOne(r.unsupportedVersions, version))
    case BadTopic(topic) =>
      r.(badTopicCount := r.badTopicCount + 1, badTopics := Touched(r.badTopics, topic, MAX_ITEMS))
    case LongMsg(topic, value, ts) =>
      r.(longMsgs := Touched(r.longMsgs, Prefix(LongText(topic, value), maxPrefix), MAX_ITEMS),
         discardTopics := AddTime(r.discardTopics, topic, ts))
  }

  function Report(id: nat, start: nat, es: seq<Event>, maxPrefix: nat): Info {
    if es == [] then EmptyInfo(id, start)
    else Record(Report(id, start, es[..|es| - 1], maxPrefix), es[|es| - 1], maxPrefix)
  }

  // ------------------------------------------------------------------ what the lists hold

  datatype ListKind = Malformed | UnixUnclean | TcpUnclean | Long | BadTopics

  function ListOf(r: Info, k: ListKind): seq<string> {
    match k
    case Malformed => r.malformedMsgs
    case UnixUnclean => r.unixUncleanMsgs
    case TcpUnclean => r.tcpUncleanMsgs
    case Long => r.longMsgs
    case BadTopics => r.badTopics
  }

  /** The string, if any, that an event contributes to a list. */
  function ItemOf(k: ListKind, e: Event, maxPrefix: nat): Option<string> {
    match e
    case MalformedMsg(msg) => if k == Malformed then Some(Prefix(msg, maxPrefix)) else None
    case UncleanDisconnect(isTcp, msg) =>
      if k == (if isTcp then TcpUnclean else UnixUnclean) then Some(Prefix(msg, maxPrefix)) else None
    case BadTopic(topic) => if k == BadTopics then Some(topic) else None
    case LongMsg(topic, value, _) => if k == Long then Some(Prefix(LongText(topic, value), maxPrefix)) else None
    case _ => None
  }

  ghost function ItemsOf(k: ListKind, es: seq<Event>, maxPrefix: nat): seq<string> {
    if es == [] then []
    else
      var item := ItemOf(k, es[|es| - 1], maxPrefix);
      ItemsOf(k, es[..|es| - 1], maxPrefix) + if item.Some? then [item.value] else []
  }

  function CountOf(r: Info, k: ListKind): nat {
    match k
    case Malformed => r.malformedCount
    case UnixUnclean => r.unixUncleanCount
    case TcpUnclean => r.tcpUncleanCount
    case Long => 0
    case BadTopics => r.badTopicCount
  }

  lemma RecordList(r: Info, e: Event, maxPrefix: nat, k: ListKind)
    ensures var item := ItemOf(k, e, maxPrefix);
      && ListOf(Record(r, e, maxPrefix), k) ==
           (if item.Some? then Touched(ListOf(r, k), item.value, MAX_ITEMS) else ListOf(r, k))
      && (k != Long ==> CountOf(Record(r, e, maxPrefix), k) == CountOf(r, k) + if item.Some? then 1 else 0)
  {
    hide Touched, Prefix, AddTime, AddOne, LongText;
  }

  /** Each list holds the most recently seen distinct strings of its report, up to the cap,
      and each counter all of them. */
  lemma {:induction false} ListsAreRecent(id: nat, start: nat, es: seq<Event>, maxPrefix: nat, k: ListKind)
    ensures var r := Report(id, start, es, maxPrefix);
      && ListOf(r, k) == Capped(Recent(ItemsOf(k, es, maxPrefix)), MAX_ITEMS)
      && (k != Long ==> CountOf(r, k) == |ItemsOf(k, es, maxPrefix)|)
  {
    if es == [] {
    } else {
      hide Record, Recent, Touched, ItemOf, Capped;
      var n := |es| - 1;
      ListsAreRecent(id, start, es[..n], maxPrefix, k);
      RecordList(Report(id, start, es[..n], maxPrefix), es[n], maxPrefix, k);
      var item := ItemOf(k, es[n], maxPrefix);
      if item.Some? {
        TouchedIsRecent(ItemsOf(k, es[..n], maxPrefix), item.value, MAX_ITEMS);
      } else {
        assert ItemsOf(k, es, maxPrefix) == ItemsOf(k, es[..n], maxPrefix);
      }
    }
  }

  // -------------------------------------------------------------- what the maps hold

  /** Whether an event is a discard, or a duplicate, of a topic. */
  function TimeOf(e: Event, topic: string, duplicates: bool): Option<int> {
    match e
    case Discard(t, ts, _) => if t == topic && !duplicates then Some(ts) else None
    case NoMemDiscard(t, ts) => if t == topic && !duplicates then Some(ts) else None
    case LongMsg(t, _, ts) => if t == topic && !duplicates then Some(ts) else None
    case Duplicate(t, ts) => if t == topic && duplicates then Some(ts) else None
    case _ => None
  }

  ghost function TimesOf(es: seq<Event>, topic: string, duplicates: bool): seq<int> {
    if es == [] then []
    else
      var t := TimeOf(es[|es| - 1], topic, duplicates);
      TimesOf(es[..|es| - 1], topic, duplicates) + if t.Some? then [t.value] else []
  }

  function MapOf(r: Info, duplicates: bool): map<string, TopicInfo> {
    if duplicates then r.duplicateTopics else r.discardTopics
  }

  /** The number of times, and the earliest and the latest of them. */
  ghost predicate Summarizes(info: TopicInfo, times: seq<int>) {
    && info.count == |times|
    && info.first in times && info.last in times
    && forall t :: t in times ==> info.first <= t <= info.last
  }

  ghost predicate TopicTold(m: map<string, TopicInfo>, topic: string, times: seq<int>) {
    (topic in m <==> times != []) && (topic in m ==> Summarizes(m[topic], times))
  }

  lemma AddTimeTells(m: map<string, TopicInfo>, topic: string, times: seq<int>, t: string, timestamp: int)
    requires TopicTold(m, topic, times)
    ensures TopicTold(AddTime(m, t, timestamp), topic, if t == topic then times + [timestamp] else times)
  {
  }

  lemma RecordTopics(r: Info, e: Event, maxPrefix: nat, topic: string, duplicates: bool, times: seq<int>)
    requires TopicTold(MapOf(r, duplicates), topic, times)
    ensures var t := TimeOf(e, topic, duplicates);
      TopicTold(MapOf(Record(r, e, maxPrefix), duplicates), topic, times + if t.Some? then [t.value] else [])
  {
    hide Touched, Prefix, AddTime, AddOne, LongText, TopicTold;
    assert times + [] == times;
    match e {
      case Discard(t, ts, _) => if !duplicates { AddTimeTells(r.discardTopics, topic, times, t, ts); }
      case NoMemDiscard(t, ts) => if !duplicates { AddTimeTells(r.discardTopics, topic, times, t, ts); }
      case LongMsg(t, _, ts) => if !duplicates { AddTimeTells(r.discardTopics, topic, times, t, ts); }
      case Duplicate(t, ts) => if duplicates { AddTimeTells(r.duplicateTopics, topic, times, t, ts); }
      case _ =>
    }
  }

  /** A topic is in a map exactly if it had such an anomaly, with their number and the
      earliest and latest of their timestamps. */
  lemma {:induction false} TopicsAreTold(id: nat, start: nat, es: seq<Event>, maxPrefix: nat, topic: string,
      duplicates: bool)
    ensures TopicTold(MapOf(Report(id, start, es, maxPrefix), duplicates), topic, TimesOf(es, topic, duplicates))
  {
    if es == [] {
    } else {
      hide Record, TimeOf, TopicTold;
      var n := |es| - 1;
      TopicsAreTold(id, start, es[..n], maxPrefix, topic, duplicates);
      RecordTopics(Report(id, start, es[..n], maxPrefix), es[n], maxPrefix, topic, duplicates,
        TimesOf(es[..n], topic, duplicates));
    }
  }

  // ---------------------------------------------------------------------- tallies

  ghost function HowMany(es: seq<Event>, p: Event -> bool): nat {
    if es == [] then 0 else HowMany(es[..|es| - 1], p) + if p(es[|es| - 1]) then 1 else 0
  }

  function Tally<K>(m: map<K, nat>, k: K): nat {
    if k in m then m[k] else 0
  }

  /** The remaining counters count their events; an absent entry counts none. */
  lemma {:induction false} TalliesCount(id: nat, start: nat, es: seq<Event>, maxPrefix: nat, topic: string,
      version: int)
    ensures var r := Report(id, start, es, maxPrefix);
      && Tally(r.rateLimitDiscards, topic) == HowMany(es, (e: Event) => e.Discard? && e.rateLimit && e.topic == topic)
      && Tally(r.unsupportedVersions, version) == HowMany(es, (e: Event) => e == UnsupportedVersion(version))
      && r.unsupportedVersionCount == HowMany(es, (e: Event) => e.UnsupportedVersion?)
      && r.unsupportedApiKeyCount == HowMany(es, (e: Event) => e.UnsupportedApiKey?)
  {
    if es == [] {
    } else {
      hide Record;
      var n := |es| - 1;
      TalliesCount(id, start, es[..n], maxPrefix, topic, version);
      RecordTallies(Report(id, start, es[..n], maxPrefix), es[n], maxPrefix, topic, version);
    }
  }

  lemma RecordTallies(r: Info, e: Event, maxPrefix: nat, topic: string, version: int)
    ensures var r' := Record(r, e, maxPrefix);
      && r'.reportId == r.reportId && r'.startTime == r.startTime
      && Tally(r'.rateLimitDiscards, topic) ==
           Tally(r.rateLimitDiscards, topic) + (if e.Discard? && e.rateLimit && e.topic == topic then 1 else 0)
      && Tally(r'.unsupportedVersions, version) ==
           Tally(r.unsupportedVersions, version) + (if e == UnsupportedVersion(version) then 1 else 0)
      && r'.unsupportedVersionCount == r.unsupportedVersionCount + (if e.UnsupportedVersion? then 1 else 0)
      && r'.unsupportedApiKeyCount == r.unsupportedApiKeyCount + (if e.UnsupportedApiKey? then 1 else 0)
  {
    hide Touched, Prefix, AddTime, LongText, AddOne, Tally;
    match e {
      case Discard(t, _, _) => AddOneTally(r.rateLimitDiscards, t, topic);
      case UnsupportedVersion(v) => AddOneTally(r.unsupportedVersions, v, version);
      case _ =>
    }
  }

  lemma AddOneTally<K>(m: map<K, nat>, k: K, other: K)
    ensures Tally(AddOne(m, k), other) == Tally(m, other) + if k == other then 1 else 0
  {
  }

  /** Every list is short enough to be searched, and has no item twice. */
  lemma ListsFit(id: nat, start: nat, es: seq<Event>, maxPrefix: nat, k: ListKind)
    ensures var list := ListOf(Report(id, start, es, maxPrefix), k);
      NoDuplicates(list) && |list| <= MAX_ITEMS
  {
    ListsAreRecent(id, start, es, maxPrefix, k);
    RecentElements(ItemsOf(k, es, maxPrefix));
  }

  /** A report keeps its number and its start. */
  lemma {:induction false} ReportHeader(id: nat, start: nat, es: seq<Event>, maxPrefix: nat)
    ensures Report(id, start, es, maxPrefix).reportId == id && Report(id, start, es, maxPrefix).startTime == start
  {
    if es == [] {
    } else {
      hide Record;
      ReportHeader(id, start, es[..|es| - 1], maxPrefix);
      RecordTallies(Report(id, start, es[..|es| - 1], maxPrefix), es[|es| - 1], maxPrefix, "", 0);
    }
  }
}
