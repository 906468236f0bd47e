/** The per-topic message rate limiter. */
module RateLimiter {
  import opened RateLimit

  datatype RateConf = RateConf(defaultTopic: TopicConf, topics: map<string, TopicConf>)

  /** The configuration builder refuses an interval of zero. */
  ghost predicate AllConfOk(conf: RateConf) {
    ConfOk(conf.defaultTopic) && forall t :: t in conf.topics ==> ConfOk(conf.topics[t])
  }

  function ConfFor(conf: RateConf, topic: string): TopicConf {
    if topic in conf.topics then conf.topics[topic] else conf.defaultTopic
  }

  /** Whether any topic is limited. */
  ghost predicate LimitsAny(conf: RateConf) {
    conf.defaultTopic.maxCount.Some? || exists t :: t in conf.topics && conf.topics[t].maxCount.Some?
  }

  method RateLimitingIsEnabled(conf: RateConf) returns (enabled: bool)
    ensures enabled <==> LimitsAny(conf)
  {
    if conf.defaultTopic.maxCount.Some? {
      return true;
    }
    var todo := conf.topics.Keys;
    while todo != {}
      invariant todo <= conf.topics.Keys
      invariant forall t :: t in conf.topics && t !in todo ==> conf.topics[t].maxCount.None?
      decreases todo
    {
      var t :| t in todo;
      if conf.topics[t].maxCount.Some? {
        return true;
      }
      todo := todo - {t};
    }
    return false;
  }

  /** A message to be judged. */
  datatype Call = Call(topic: string, timestamp: nat)

  /** The timestamps of one topic's messages. */
  ghost function TimesOf(calls: seq<Call>, topic: string): seq<nat> {
    if calls == [] then []
    else
      var n := |calls| - 1;
      TimesOf(calls[..n], topic) + if calls[n].topic == topic then [calls[n].timestamp] else []
  }

  ghost predicate CallsOk(calls: seq<Call>) {
    forall i :: 0 <= i < |calls| ==> calls[i].timestamp < WORD
  }

  lemma {:induction false} TimesOfOk(calls: seq<Call>, topic: string)
    requires CallsOk(calls)
    ensures TimesOk(TimesOf(calls, topic))
  {
    if calls == [] {
    } else {
      TimesOfOk(calls[..|calls| - 1], topic);
    }
  }

  class MsgRateLimiter {
    const conf: RateConf
    const isEnabled: bool
    var topicStateMap: map<string, TopicState>

    /** Every call so far. */
    ghost var calls: seq<Call>

    /** Each topic's state is what its own messages alone lead to. */
    ghost predicate Valid()
      reads this
    {
      && AllConfOk(conf) && CallsOk(calls) && (isEnabled <==> LimitsAny(conf))
      && (isEnabled ==> AllStates(conf, calls, topicStateMap))
    }

    constructor (c: RateConf)
      requires AllConfOk(c)
      ensures Valid() && conf == c && calls == []
    {
      var enabled := RateLimitingIsEnabled(c);
      conf, isEnabled := c, enabled;
      topicStateMap := map[];
      calls := [];
    }

    method GetTopicState(topic: string, timestamp: nat) returns (state: TopicState)
      requires AllConfOk(conf) && timestamp < WORD
      requires topic in topicStateMap ==> StateOk(topicStateMap[topic])
      ensures topic !in topicStateMap && topic in conf.topics ==> state == FirstState(conf.topics[topic], timestamp)
      ensures topic !in topicStateMap && topic !in conf.topics ==> state == FirstState(conf.defaultTopic, timestamp)
      ensures topic in topicStateMap ==>
        var s := topicStateMap[topic];
        state == if WindowOver(s, timestamp) then NextWindow(s, timestamp) else s
    {
      if topic in topicStateMap {
        state := topicStateMap[topic];
        if timestamp >= (state.intervalStart + state.interval) % WORD {
          var intervalDelta := ((timestamp - state.intervalStart) % WORD) / state.interval;
          state := state.(intervalStart := (state.intervalStart + intervalDelta * state.interval) % WORD, count := 0);
        }
        return;
      }
      var c := if topic in conf.topics then conf.topics[topic] else conf.defaultTopic;
      state := TopicState(false, 1, 0, 0, 0).(enable := c.maxCount.Some?);
      if state.enable {
        state := state.(interval := c.interval, maxCount := c.maxCount.value, intervalStart := timestamp);
      }
    }

    /** A message is judged by the messages of its own topic alone, and by the topic's own
        configuration if there is one. */
    method WouldExceedLimit(topic: string, timestamp: nat) returns (exceeds: bool)
      requires Valid() && timestamp < WORD
      modifies `topicStateMap, `calls
      ensures Valid() && calls == old(calls) + [Call(topic, timestamp)]
      ensures var times := TimesOf(calls, topic);
        && times != [] && TimesOk(times) && AllConfOk(conf)
        && (topic in conf.topics ==> exceeds == Refused(conf.topics[topic], times, |times| - 1))
        && (topic !in conf.topics ==> exceeds == Refused(conf.defaultTopic, times, |times| - 1))
      ensures topic in conf.topics && conf.topics[topic].maxCount.None? ==> !exceeds
    {
      hide After, AllConfOk, CallsOk, AllStates, LimitsAny, Refused, TimesOk, WindowOver, NextWindow;
      ghost var c := Call(topic, timestamp);
      TimesSnoc(calls, c, topic);
      ConfForOk(conf, topic);
      CallsMore(calls, c);
      Configured(conf, topic);
      TimesOfOk(calls + [c], topic);
      if !isEnabled {
        calls := calls + [c];
        Unlimited(conf, topic, TimesOf(calls, topic));
        return false;
      }
      StateSane(conf, calls, topic, topicStateMap);
      var state := GetTopicState(topic, timestamp);
      state := state.(count := state.count + 1);
      AllJudged(conf, calls, topic, timestamp, topicStateMap, state);
      topicStateMap := topicStateMap[topic := state];
      calls := calls + [c];
      exceeds := state.enable && state.count > state.maxCount;
      NoMaximum(ConfFor(conf, topic), TimesOf(calls, topic));
    }
  }

  ghost predicate AllStates(conf: RateConf, calls: seq<Call>, states: map<string, TopicState>) {
    forall t :: StateIs(conf, calls, t, states)
  }

  lemma StateSane(conf: RateConf, calls: seq<Call>, topic: string, states: map<string, TopicState>)
    requires AllStates(conf, calls, states)
    ensures topic in states ==> StateOk(states[topic])
  {
    assert StateIs(conf, calls, topic, states);
  }

  lemma AllJudged(conf: RateConf, calls: seq<Call>, topic: string, timestamp: nat, states: map<string, TopicState>,
      s: TopicState)
    requires ConfOk(ConfFor(conf, topic)) && AllStates(conf, calls, states) && timestamp < WORD
    requires topic in states ==> StateOk(states[topic])
    requires s == (
      if topic !in states then FirstState(ConfFor(conf, topic), timestamp).(count := 1)
      else Arrive(states[topic], timestamp))
    ensures AllStates(conf, calls + [Call(topic, timestamp)], states[topic := s])
    ensures var times := TimesOf(calls + [Call(topic, timestamp)], topic);
      times != [] && TimesOk(times) && (Exceeds(s) <==> Refused(ConfFor(conf, topic), times, |times| - 1))
  {
    hide StateIs, Arrive, TimesOf, Refused;
    var calls', states' := calls + [Call(topic, timestamp)], states[topic := s];
    assert StateIs(conf, calls, topic, states);
    Judged(conf, calls, topic, timestamp, states, s);
    forall t ensures StateIs(conf, calls', t, states') {
      if t != topic { OthersKept(conf, calls, topic, timestamp, states, s, t); }
    }
  }

  ghost predicate StateIs(conf: RateConf, calls: seq<Call>, topic: string, states: map<string, TopicState>) {
    var times := TimesOf(calls, topic);
    && (topic in states <==> times != [])
    && (topic in states ==>
        && ConfOk(ConfFor(conf, topic)) && TimesOk(times)
        && states[topic] == After(ConfFor(conf, topic), times))
  }

  lemma TimesSnoc(calls: seq<Call>, c: Call, topic: string)
    ensures TimesOf(calls + [c], topic) == TimesOf(calls, topic) + if c.topic == topic then [c.timestamp] else []
  {
  }

  lemma ConfForOk(conf: RateConf, topic: string)
    requires AllConfOk(conf)
    ensures ConfOk(ConfFor(conf, topic))
  {
  }

  lemma Configured(conf: RateConf, topic: string)
    ensures ConfFor(conf, topic) == if topic in conf.topics then conf.topics[topic] else conf.defaultTopic
  {
  }

  lemma NoMaximum(conf: TopicConf, times: seq<nat>)
    requires ConfOk(conf) && TimesOk(times) && times != []
    ensures conf.maxCount.None? ==> !Refused(conf, times, |times| - 1)
  {
  }

  lemma CallsMore(calls: seq<Call>, c: Call)
    requires CallsOk(calls) && c.timestamp < WORD
    ensures CallsOk(calls + [c])
  {
  }

  lemma Unlimited(conf: RateConf, topic: string, times: seq<nat>)
    requires !LimitsAny(conf) && ConfOk(ConfFor(conf, topic)) && TimesOk(times) && times != []
    ensures !Refused(ConfFor(conf, topic), times, |times| - 1)
  {
  }

  lemma OthersKept(conf: RateConf, calls: seq<Call>, topic: string, timestamp: nat, states: map<string, TopicState>,
      s: TopicState, t: string)
    requires t != topic && StateIs(conf, calls, t, states)
    ensures StateIs(conf, calls + [Call(topic, timestamp)], t, states[topic := s])
  {
    TimesSnoc(calls, Call(topic, timestamp), t);
    assert TimesOf(calls, t) + [] == TimesOf(calls, t);
  }

  /** The state computed for the message is the one its topic's messages lead to. */
  lemma Judged(conf: RateConf, calls: seq<Call>, topic: string, timestamp: nat, states: map<string, TopicState>,
      s: TopicState)
    requires ConfOk(ConfFor(conf, topic)) && StateIs(conf, calls, topic, states) && timestamp < WORD
    requires s == (
      if topic !in states then FirstState(ConfFor(conf, topic), timestamp).(count := 1)
      else Arrive(states[topic], timestamp))
    ensures StateIs(conf, calls + [Call(topic, timestamp)], topic, states[topic := s])
    ensures var times := TimesOf(calls + [Call(topic, timestamp)], topic);
      times != [] && TimesOk(times) && (Exceeds(s) <==> Refused(ConfFor(conf, topic), times, |times| - 1))
  {
    hide Arrive;
    TimesSnoc(calls, Call(topic, timestamp), topic);
    var times := TimesOf(calls, topic) + [timestamp];
    assert times[..|times| - 1] == TimesOf(calls, topic) && times[..|times|] == times;
  }
}
