/** When a topic's batch is complete: the batcher for a single topic. */
module BatchLimits {
  import opened Messages
  import opened Options

  /** Zero switches a limit off. */
  datatype Limits = Limits(timeLimit: nat, msgCount: nat, byteCount: nat)

  predicate BatchingIsEnabled(limits: Limits) {
    limits.timeLimit != 0 || limits.msgCount != 0 || limits.byteCount != 0
  }

  const INT64_MAX := 0x7FFF_FFFF_FFFF_FFFF

  /** Timestamps are 64-bit signed integers. */
  function Wrap64(x: int): int {
    (x + 0x8000_0000_0000_0000) % 0x1_0000_0000_0000_0000 - 0x8000_0000_0000_0000
  }

  function Min(a: int, b: int): int {
    if a < b then a else b
  }

  // ------------------------------------------------------------------ complete batches

  /** An empty message counts as one byte. */
  function SizeOf(msg: Msg): nat {
    if msg.bodySize == 0 then 1 else msg.bodySize
  }

  function Bytes(batch: Batch): nat {
    if batch == [] then 0 else Bytes(batch[..|batch| - 1]) + SizeOf(batch[|batch| - 1])
  }

  function Oldest(batch: Batch): int {
    if batch == [] then INT64_MAX else Min(Oldest(batch[..|batch| - 1]), batch[|batch| - 1].timestamp)
  }

  function Expiry(limits: Limits, batch: Batch): int {
    Wrap64(Oldest(batch) + limits.timeLimit)
  }

  /** The batch's time is up. */
  predicate Due(limits: Limits, batch: Batch, now: int) {
    limits.timeLimit != 0 && now >= Expiry(limits, batch)
  }

  predicate Full(limits: Limits, batch: Batch) {
    || (limits.msgCount != 0 && |batch| >= limits.msgCount)
    || (limits.byteCount != 0 && Bytes(batch) >= limits.byteCount)
  }

  predicate Complete(limits: Limits, batch: Batch, now: int) {
    Due(limits, batch, now) || Full(limits, batch)
  }

  predicate Overfull(limits: Limits, batch: Batch) {
    limits.byteCount != 0 && Bytes(batch) > limits.byteCount
  }

  /** Batches that are ready to go, in order, and the batch that waits for more. */
  datatype Outcome = Outcome(ready: seq<Batch>, kept: Batch)

  function Settled(limits: Limits, batch: Batch, now: int): Outcome {
    if Complete(limits, batch, now) then Outcome([batch], []) else Outcome([], batch)
  }

  /** What becomes of a batch and a new message.  The message joins the batch, unless that
      would make it too large; then the batch goes and the message starts a new one. */
  function Added(limits: Limits, batch: Batch, msg: Msg, now: int): Outcome {
    if batch != [] && Overfull(limits, batch + [msg]) then
      var started := Settled(limits, [msg], now);
      Outcome([batch] + started.ready, started.kept)
    else
      Settled(limits, batch + [msg], now)
  }

  lemma BytesSnoc(batch: Batch, msg: Msg)
    ensures Bytes(batch + [msg]) == Bytes(batch) + SizeOf(msg)
    ensures Oldest(batch + [msg]) == Min(Oldest(batch), msg.timestamp)
    ensures batch != [] ==> Bytes(batch) > 0
  {
    assert (batch + [msg])[..|batch|] == batch;
  }

  lemma BytesOne(msg: Msg)
    ensures Bytes([msg]) == SizeOf(msg) && Oldest([msg]) == Min(INT64_MAX, msg.timestamp)
    ensures Bytes([]) == 0 && Oldest([]) == INT64_MAX
  {
    BytesSnoc([], msg);
    assert [] + [msg] == [msg];
  }

  /** Order is kept: what is ready, and then what is kept, are the old batch and then the
      message. */
  lemma AddedInOrder(limits: Limits, batch: Batch, msg: Msg, now: int)
    ensures var o := Added(limits, batch, msg, now);
      Flat(o.ready) + o.kept == batch + [msg]
  {
    hide Complete, Overfull;
    assert Flat([]) == [];
    FlatConcat([batch], [[msg]]);
    assert forall b: Batch :: [b][..0] == [] && Flat([b]) == b;
  }

  /** A batch never waits after it is complete. */
  lemma KeptIsIncomplete(limits: Limits, batch: Batch, msg: Msg, now: int)
    ensures var o := Added(limits, batch, msg, now);
      o.kept == [] || !Complete(limits, o.kept, now)
  {
  }

  /** A batch goes only when it is complete, or when the message would make it too large;
      and unless a single message is too large, no batch is. */
  lemma ReadyForReason(limits: Limits, batch: Batch, msg: Msg, now: int, b: Batch)
    requires b in Added(limits, batch, msg, now).ready
    ensures b != [] && (Complete(limits, b, now) || (b == batch && Overfull(limits, batch + [msg])))
    ensures !Overfull(limits, batch) ==> !Overfull(limits, b) || b == [msg]
  {
    hide Bytes, Oldest;
  }

  /** Empty messages count too, so a limit on bytes alone also bounds their number. */
  lemma {:induction false} BytesCountMessages(batch: Batch)
    ensures Bytes(batch) >= |batch|
    ensures forall m :: m in batch ==> Bytes(batch) >= m.bodySize
  {
    if batch == [] {
    } else {
      var n := |batch| - 1;
      BytesCountMessages(batch[..n]);
      assert batch == batch[..n] + [batch[n]];
    }
  }

  lemma Wrap64Small(x: int)
    requires -0x8000_0000_0000_0000 <= x <= INT64_MAX
    ensures Wrap64(x) == x
  {
  }

  lemma {:induction false} OldestIsLeast(batch: Batch)
    ensures forall m :: m in batch ==> Oldest(batch) <= m.timestamp
    ensures batch != [] && Oldest(batch) < INT64_MAX ==> exists m :: m in batch && m.timestamp == Oldest(batch)
  {
    if batch == [] {
    } else {
      var n := |batch| - 1;
      OldestIsLeast(batch[..n]);
      assert batch == batch[..n] + [batch[n]];
      if Oldest(batch[..n]) <= batch[n].timestamp && n > 0 && Oldest(batch) < INT64_MAX {
        var m :| m in batch[..n] && m.timestamp == Oldest(batch[..n]);
        assert m in batch;
      } else {
        assert batch[n] in batch;
      }
    }
  }

  lemma EnabledIff(limits: Limits)
    ensures BatchingIsEnabled(limits) <==> limits != Limits(0, 0, 0)
  {
  }

  /** While the sums fit, a batch is due exactly when some message in it has waited for the
      time limit. */
  lemma DueIff(limits: Limits, batch: Batch, now: int)
    requires batch != []
    requires forall m :: m in batch ==> 0 <= m.timestamp && m.timestamp + limits.timeLimit < 0x7FFF_FFFF_FFFF_FFFF
    ensures Due(limits, batch, now) <==>
      limits.timeLimit != 0 && exists m :: m in batch && now >= m.timestamp + limits.timeLimit
  {
    OldestIsLeast(batch);
    assert batch[0] in batch && Oldest(batch) <= batch[0].timestamp;
    var m :| m in batch && m.timestamp == Oldest(batch);
    Wrap64Small(Oldest(batch) + limits.timeLimit);
  }

  // ------------------------------------------------------------------------- the batcher

  datatype Action =
    | LeaveMsgAndReturnBatch
    | ReturnBatchAndTakeMsg
    | TakeMsgAndReturnBatch
    | TakeMsgAndLeaveBatch

  ghost function NonEmptyList(batch: Batch): seq<Batch> {
    if batch == [] then [] else [batch]
  }

  /** What an action makes of a batch and a new message. */
  ghost function ActedOn(action: Action, batch: Batch, msg: Msg): Outcome {
    match action
    case LeaveMsgAndReturnBatch => Outcome(NonEmptyList(batch) + [[msg]], [])
    case ReturnBatchAndTakeMsg => Outcome(NonEmptyList(batch), [msg])
    case TakeMsgAndReturnBatch => Outcome([batch + [msg]], [])
    case TakeMsgAndLeaveBatch => Outcome([], batch + [msg])
  }

  /** Keeps counters of its batch instead of looking through it. */
  class SingleTopicBatcher {
    const config: Limits
    var minTimestamp: int
    var msgCount: nat
    var byteCount: nat
    var msgList: Batch

    /** The counters are those of a batch. */
    ghost predicate Counts(batch: Batch)
      reads this
    {
      minTimestamp == Oldest(batch) && msgCount == |batch| && byteCount == Bytes(batch)
    }

    ghost predicate Valid()
      reads this
    {
      Counts(msgList)
    }

    constructor (limits: Limits)
      ensures Valid() && config == limits && msgList == []
    {
      config := limits;
      minTimestamp, msgCount, byteCount := INT64_MAX, 0, 0;
      msgList := [];
    }

    method ClearState()
      modifies `minTimestamp, `msgCount, `byteCount
      ensures Counts([])
    {
      minTimestamp, msgCount, byteCount := INT64_MAX, 0, 0;
    }

    method UpdateState(ghost batch: Batch, msg: Msg, bodySize: nat)
      requires Counts(batch) && bodySize == SizeOf(msg)
      modifies `minTimestamp, `msgCount, `byteCount
      ensures Counts(batch + [msg])
    {
      BytesSnoc(batch, msg);
      minTimestamp := Min(minTimestamp, msg.timestamp);
      msgCount := msgCount + 1;
      byteCount := byteCount + bodySize;
    }

    predicate TestTimeLimit(now: int, newMsgTimestamp: int)
      reads this
    {
      config.timeLimit != 0 && now >= Wrap64(Min(minTimestamp, newMsgTimestamp) + config.timeLimit)
    }

    predicate TestMsgCount(addingMsg: bool)
      reads this
    {
      config.msgCount != 0 && msgCount + (if addingMsg then 1 else 0) >= config.msgCount
    }

    predicate TestByteCountExceeded(bytesToAdd: nat)
      reads this
    {
      config.byteCount != 0 && byteCount + bytesToAdd > config.byteCount
    }

    predicate TestAllLimits(now: int)
      reads this
    {
      || TestTimeLimit(now, INT64_MAX) || TestMsgCount(false)
      || (config.byteCount != 0 && byteCount >= config.byteCount)
    }

    /** Decides by the counters, and leaves them as those of the batch that is kept. */
    method ProcessNewMsg(now: int, msg: Msg) returns (action: Action)
      requires Valid() && BatchingIsEnabled(config)
      modifies `minTimestamp, `msgCount, `byteCount
      ensures ActedOn(action, msgList, msg) == Added(config, msgList, msg, now)
      ensures Counts(ActedOn(action, msgList, msg).kept)
    {
      hide Wrap64, SizeOf, Bytes, Oldest;
      var bodySize := SizeOf(msg);
      BytesSnoc(msgList, msg);
      BytesOne(msg);
      assert [] + [msg] == [msg];
      if config.byteCount != 0 && bodySize >= config.byteCount {
        ClearState();
        return LeaveMsgAndReturnBatch;
      }
      if TestByteCountExceeded(bodySize) {
        ClearState();
        if TestMsgCount(true) || TestTimeLimit(now, msg.timestamp) {
          return LeaveMsgAndReturnBatch;
        }
        UpdateState([], msg, bodySize);
        return ReturnBatchAndTakeMsg;
      }
      UpdateState(msgList, msg, bodySize);
      OldestBound(msgList + [msg]);
      if TestAllLimits(now) {
        ClearState();
        return TakeMsgAndReturnBatch;
      }
      return TakeMsgAndLeaveBatch;
    }

    /** The batch that is complete, if any, and whether the message was left out of it. */
    method AddMsg(msg: Msg, now: int) returns (result: Batch, left: bool)
      requires Valid()
      modifies this
      ensures Valid()
      ensures !BatchingIsEnabled(config) ==> result == [] && left && msgList == old(msgList)
      ensures BatchingIsEnabled(config) ==>
        Added(config, old(msgList), msg, now) ==
        Outcome(NonEmptyList(result) + (if left then [[msg]] else []), msgList)
    {
      result, left := [], true;
      if !BatchingIsEnabled(config) {
        return;
      }
      var action := ProcessNewMsg(now, msg);
      match action {
        case LeaveMsgAndReturnBatch =>
          result, msgList := msgList, [];
        case ReturnBatchAndTakeMsg =>
          result, msgList, left := msgList, [msg], false;
        case TakeMsgAndReturnBatch =>
          result, msgList, left := msgList + [msg], [], false;
        case TakeMsgAndLeaveBatch =>
          msgList, left := msgList + [msg], false;
      }
    }

    method TakeBatch() returns (batch: Batch)
      requires Valid()
      modifies this
      ensures Valid() && msgList == [] && batch == old(msgList)
    {
      ClearState();
      batch, msgList := msgList, [];
    }

    method GetNextCompleteTime() returns (time: Option<int>)
      requires Valid()
      ensures time == if msgList == [] || config.timeLimit == 0 then None else Some(Expiry(config, msgList))
    {
      if msgCount == 0 || config.timeLimit == 0 {
        return None;
      }
      return Some(Wrap64(minTimestamp + config.timeLimit));
    }
  }

  lemma {:induction false} OldestBound(batch: Batch)
    ensures Min(Oldest(batch), INT64_MAX) == Oldest(batch)
  {
    if batch == [] {
    } else {
      OldestBound(batch[..|batch| - 1]);
    }
  }
}
