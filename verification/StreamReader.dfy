/** The incremental reader of a stream of sized messages, with its client's loop. */
module StreamReader {
  import opened BigEndian
  import opened Framing
  import opened Options
  import opened StreamBuffer

  datatype State = ReadNeeded | MsgReady | DataInvalid | AtEnd

  /** What GetNextMsg reports. */
  datatype GetMsgResult =
    | MsgAt(offset: nat, size: nat, trailing: nat)
    | NoMsgReady
    | Invalid

  /** How a call to read() turns out: some bytes, an error worth retrying, or end of input. */
  datatype ReadEvent = Chunk(bytes: seq<byte>) | Retry | EndOfInput

  datatype Fields = Fields(
    state: State,
    endOfInput: bool,
    readyMsgOffset: nat,
    readyMsgSize: nat,
    trailingDataSize: nat,
    msgBodySize: Option<nat>,
    invalidReason: Option<InvalidReason>)

  ghost predicate SizeKnown(cfg: Config, data: seq<byte>, size: Option<nat>) {
    size.Some? ==> |data| >= cfg.sizeFieldSize && BodySize(cfg, data[..cfg.sizeFieldSize]) == Ready(size.value)
  }

  ghost predicate NothingReady(f: Fields) {
    f.readyMsgOffset == f.readyMsgSize == f.trailingDataSize == 0
  }

  /** The state is the one that the buffered data calls for. */
  ghost predicate Sound(cfg: Config, f: Fields, data: seq<byte>) {
    && SizeKnown(cfg, data, f.msgBodySize)
    && match f.state
       case ReadNeeded => !f.endOfInput && NextMsg(cfg, data).NeedMore? && NothingReady(f)
       case AtEnd => f.endOfInput && NextMsg(cfg, data).NeedMore? && NothingReady(f)
       case DataInvalid => f.invalidReason.Some? && NextMsg(cfg, data) == Bad(f.invalidReason.value)
       case MsgReady =>
         && f.msgBodySize.Some? && NextMsg(cfg, data) == Ready(f.msgBodySize.value)
         && f.readyMsgOffset == (if cfg.includeSizeFieldInMsg then 0 else cfg.sizeFieldSize)
         && f.readyMsgOffset + f.readyMsgSize == cfg.sizeFieldSize + f.msgBodySize.value
         && f.trailingDataSize == 0
  }

  /** The result that the buffered data calls for. */
  ghost predicate Reports(cfg: Config, data: seq<byte>, r: GetMsgResult, size: Option<nat>,
      reason: Option<InvalidReason>)
  {
    match NextMsg(cfg, data)
    case NeedMore => r == NoMsgReady
    case Bad(why) => r == Invalid && reason == Some(why)
    case Ready(body) =>
      && size == Some(body) && r.MsgAt? && r.trailing == 0
      && r.offset == (if cfg.includeSizeFieldInMsg then 0 else cfg.sizeFieldSize)
      && r.offset + r.size == cfg.sizeFieldSize + body
  }

  class StreamMsgReader {
    const cfg: Config
    const preferredReadSize: nat
    const buf: Buf

    var state: State
    var endOfInput: bool
    var readyMsgOffset: nat
    var readyMsgSize: nat
    var trailingDataSize: nat
    var msgBodySize: Option<nat>
    var invalidReason: Option<InvalidReason>

    /** A Die call on a message outside the buffer. */
    var faulted: bool

    /** All bytes read, and all messages consumed, since the last reset. */
    ghost var received: seq<byte>
    ghost var delivered: seq<seq<byte>>

    ghost function All(): Fields
      reads this
    {
      Fields(state, endOfInput, readyMsgOffset, readyMsgSize, trailingDataSize, msgBodySize, invalidReason)
    }

    /** The buffer never grows beyond one read on top of an incomplete message. */
    ghost predicate Bounded()
      reads this, buf
    {
      buf.storage.Length <= preferredReadSize + cfg.sizeFieldSize + cfg.maxMsgBodySize - 1
    }

    ghost predicate Valid()
      reads this, buf, buf.storage
    {
      && ConfigOk(cfg) && preferredReadSize > 0 && !faulted
      && buf.Valid() && Bounded()
      && Sound(cfg, All(), buf.Contents())
      && Taken(cfg, received, delivered, buf.Contents())
    }

    ghost predicate Fresh()
      reads this, buf, buf.storage
    {
      Valid() && received == [] && delivered == []
    }

    constructor (config: Config, readSize: nat, hasFd: bool)
      requires ConfigOk(config) && readSize > 0
      ensures Fresh() && cfg == config && preferredReadSize == readSize && fresh(buf) && fresh(buf.storage)
      ensures state == if hasFd then ReadNeeded else AtEnd
    {
      cfg, preferredReadSize := config, readSize;
      buf := new Buf();
      state, endOfInput := if hasFd then ReadNeeded else AtEnd, !hasFd;
      readyMsgOffset, readyMsgSize, trailingDataSize := 0, 0, 0;
      msgBodySize, invalidReason := None, None;
      faulted := false;
      received, delivered := [], [];
    }

    /** The buffer keeps its storage for the next file descriptor. */
    method Reset(hasFd: bool)
      requires Valid()
      modifies this, buf`itemOffset, buf`itemCount
      ensures Fresh() && state == (if hasFd then ReadNeeded else AtEnd) && buf.storage == old(buf.storage)
    {
      hide Sound, Taken, ConfigOk, Buf.Contents, Buf.Valid, SizeKnown;
      FreshSound(cfg, hasFd);
      msgBodySize, invalidReason := None, None;
      buf.Clear();
      state, endOfInput := if hasFd then ReadNeeded else AtEnd, !hasFd;
      readyMsgOffset, readyMsgSize, trailingDataSize := 0, 0, 0;
      received, delivered := [], [];
    }

    function ReadSizeField(field: seq<byte>): Option<nat> {
      if cfg.sizeFieldIsSigned then
        if Signed(field) < 0 then None else Some(Signed(field))
      else
        Some(Unsigned(field))
    }

    method GetNextMsg() returns (r: GetMsgResult)
      requires buf.Valid() && SizeKnown(cfg, buf.Contents(), msgBodySize)
      modifies `msgBodySize, `invalidReason
      ensures SizeKnown(cfg, buf.Contents(), msgBodySize)
      ensures Reports(cfg, buf.Contents(), r, msgBodySize, invalidReason)
    {
      hide Signed, Unsigned, Buf.Contents, Buf.Valid;
      ghost var data := buf.Contents();
      if buf.itemCount < cfg.sizeFieldSize {
        return NoMsgReady;
      }
      if msgBodySize.None? {
        var field := buf.Peek(0, cfg.sizeFieldSize);
        var optSize := ReadSizeField(field);
        if optSize.None? {
          invalidReason := Some(InvalidSizeField);
          return Invalid;
        }
        var size := optSize.value;
        if cfg.sizeIncludesSizeField && size < cfg.sizeFieldSize {
          invalidReason := Some(InvalidSizeField);
          return Invalid;
        }
        if size > cfg.maxMsgBodySize &&
           (!cfg.sizeIncludesSizeField || size - cfg.maxMsgBodySize > cfg.sizeFieldSize) {
          invalidReason := Some(MsgBodyTooLarge);
          return Invalid;
        }
        msgBodySize := Some(if cfg.sizeIncludesSizeField then size - cfg.sizeFieldSize else size);
      }
      var bodySize := msgBodySize.value;
      if buf.itemCount < cfg.sizeFieldSize + bodySize {
        return NoMsgReady;
      }
      var reportedSize, reportedOffset := bodySize, 0;
      if cfg.includeSizeFieldInMsg {
        reportedSize := reportedSize + cfg.sizeFieldSize;
      } else {
        reportedOffset := reportedOffset + cfg.sizeFieldSize;
      }
      return MsgAt(reportedOffset, reportedSize, 0);
    }

    method TryAdvanceToNextMsg()
      requires buf.Valid() && SizeKnown(cfg, buf.Contents(), msgBodySize)
      requires readyMsgOffset == readyMsgSize == trailingDataSize == 0 && !faulted
      modifies this
      ensures Sound(cfg, All(), buf.Contents()) && !faulted && endOfInput == old(endOfInput)
      ensures received == old(received) && delivered == old(delivered)
      ensures state == ReadNeeded ==> !endOfInput
    {
      hide Sound, Reports, SizeKnown, Buf.Contents, Buf.Valid;
      var result := GetNextMsg();
      AdvanceSound(cfg, buf.Contents(), result, msgBodySize, invalidReason, endOfInput);
      match result {
        case MsgAt(offset, size, trailing) =>
          faulted := offset > buf.itemCount || size > buf.itemCount - offset ||
            trailing > buf.itemCount - readyMsgOffset - readyMsgSize;
          readyMsgOffset, readyMsgSize, trailingDataSize := offset, size, trailing;
          state := MsgReady;
        case NoMsgReady =>
          state := if endOfInput then AtEnd else ReadNeeded;
        case Invalid =>
          state := DataInvalid;
      }
    }

    method Read(e: ReadEvent)
      requires Valid() && state == ReadNeeded
      requires e.Chunk? ==> 0 < |e.bytes| <= preferredReadSize
      modifies this, buf, buf.storage
      ensures Valid() && (buf.storage == old(buf.storage) || fresh(buf.storage))
      ensures delivered == old(delivered)
      ensures received == if e.Chunk? then old(received) + e.bytes else old(received)
      ensures endOfInput <==> e.EndOfInput?
      ensures e.Retry? ==> state == ReadNeeded
    {
      hide Sound, Taken, SizeKnown, NextMsg, ConfigOk, Buf.Contents, Buf.Valid;
      Waiting(cfg, All(), buf.Contents());
      NeedMoreBound(cfg, buf.Contents());
      PositiveField(cfg);
      buf.EnsureSpace(preferredReadSize);
      match e {
        case Retry =>
        case Chunk(bytes) =>
          TakenMore(cfg, received, delivered, buf.Contents(), bytes);
          SizeStays(cfg, buf.Contents(), bytes, msgBodySize);
          buf.Deposit(bytes);
          received := received + bytes;
          TryAdvanceToNextMsg();
        case EndOfInput =>
          endOfInput := true;
          TryAdvanceToNextMsg();
      }
    }

    method GetReadyMsg() returns (msg: seq<byte>)
      requires Valid() && state == MsgReady
      ensures NextMsg(cfg, buf.Contents()).Ready? && msg == MsgIn(cfg, buf.Contents())
    {
      hide Sound, Taken, NextMsg, ConfigOk, Buf.Contents, Buf.Valid;
      HasReady(cfg, All(), buf.Contents());
      msg := buf.Peek(readyMsgOffset, readyMsgSize);
    }

    method ConsumeReadyMsg()
      requires Valid() && state == MsgReady
      modifies this, buf`itemOffset, buf`itemCount
      ensures Valid()
      ensures old(NextMsg(cfg, buf.Contents())).Ready?
      ensures delivered == old(delivered) + [old(MsgIn(cfg, buf.Contents()))]
      ensures received == old(received) && endOfInput == old(endOfInput)
      ensures buf.itemCount < old(buf.itemCount)
    {
      hide Sound, Taken, SizeKnown, NextMsg, ConfigOk, Buf.Contents, Buf.Valid;
      ghost var data := buf.Contents();
      HasReady(cfg, All(), data);
      TakenOne(cfg, received, delivered, data);
      delivered := delivered + [MsgIn(cfg, data)];
      msgBodySize := None;
      buf.MarkDataConsumed(readyMsgOffset + readyMsgSize + trailingDataSize);
      readyMsgOffset, readyMsgSize, trailingDataSize := 0, 0, 0;
      assert SizeKnown(cfg, buf.Contents(), None) by { NoSizeKnown(cfg, buf.Contents()); }
      TryAdvanceToNextMsg();
    }

    // ------------------------------------------------------------------------- any use

    /** Over any calls a client may make, across any number of file descriptors, the
        reader stays sound and its storage bounded. */
    method Run(calls: seq<Call>)
      requires Valid() && forall i :: 0 <= i < |calls| ==> CallFits(calls[i], preferredReadSize)
      modifies this, buf, buf.storage
      ensures Valid() && (buf.storage == old(buf.storage) || fresh(buf.storage))
    {
      hide Valid;
      for i := 0 to |calls|
        invariant Valid() && (buf.storage == old(buf.storage) || fresh(buf.storage))
      {
        match calls[i] {
          case DoRead(e) => if state == ReadNeeded { Read(e); }
          case DoConsume => if state == MsgReady { ConsumeReadyMsg(); }
          case DoReset(hasFd) => Reset(hasFd);
        }
      }
    }

    // ---------------------------------------------------------------------- the client

    /** Consumes all the messages that are ready. */
    method Drain(soFar: seq<seq<byte>>) returns (msgs: seq<seq<byte>>)
      requires Valid() && soFar == delivered
      modifies this, buf`itemOffset, buf`itemCount
      ensures Valid() && msgs == delivered && state != MsgReady
      ensures received == old(received) && endOfInput == old(endOfInput)
    {
      hide Valid;
      msgs := soFar;
      while state == MsgReady
        invariant Valid() && msgs == delivered
        invariant received == old(received) && endOfInput == old(endOfInput)
        decreases buf.itemCount
      {
        var msg := GetReadyMsg();
        msgs := msgs + [msg];
        ConsumeReadyMsg();
      }
    }

    /** However the stream is cut into reads, with retries anywhere, the messages and the
        final state are those of a single parse of the whole stream.  So are the bytes left
        over, unless the data is invalid; then they are those of a parse of what had arrived
        when this first showed, as nothing is read after that. */
    method Feed(events: seq<ReadEvent>) returns (msgs: seq<seq<byte>>)
      requires Fresh() && state == ReadNeeded && ReadsFit(events, preferredReadSize)
      modifies this, buf, buf.storage
      ensures Valid() && (buf.storage == old(buf.storage) || fresh(buf.storage))
      ensures
        var p := Parse(cfg, Stream(events));
        && msgs == p.msgs
        && (p.invalid.None? ==>
          state == (if EndOfInput in events then AtEnd else ReadNeeded) && buf.Contents() == p.rest)
        && (p.invalid.Some? ==>
              && state == DataInvalid && invalidReason == p.invalid
              && exists k: nat ::
                   FirstInvalid(cfg, events, k) && buf.Contents() == Parse(cfg, Stream(events[..k])).rest)
    {
      hide Valid, Stream, Parse, SoFar, ReadsFit, Buf.Contents;
      msgs := [];
      var i := 0;
      NotEnded();
      SoFarStart(events);
      while i < |events| && state == ReadNeeded
        invariant i <= |events| && Valid() && msgs == delivered && state != MsgReady
        invariant buf.storage == old(buf.storage) || fresh(buf.storage)
        invariant SoFar(events, i, received, endOfInput)
        invariant received == Stream(events[..i]) && ValidBefore(cfg, events, i)
        decreases |events| - i
      {
        NotEnded();
        ParseSoFar();
        SoFarStep(events, i, received, preferredReadSize);
        StreamSnoc(events, i);
        Read(events[i]);
        msgs := Drain(msgs);
        i := i + 1;
      }
      if state == ReadNeeded { NotEnded(); }
      SoFarEnd(events, i, received, endOfInput);
      ParseSoFar();
      Settled(events);
      assert state == DataInvalid ==> FirstInvalid(cfg, events, i);
    }

    lemma NotEnded()
      requires Valid() && state == ReadNeeded
      ensures !endOfInput && ConfigOk(cfg)
    {
    }

    lemma ParseSoFar()
      requires Valid() && state != MsgReady
      ensures Parse(cfg, received) ==
        Parsed(delivered, buf.Contents(), if state == DataInvalid then invalidReason else None)
      ensures state == DataInvalid ==> invalidReason.Some?
    {
      hide Taken, ConfigOk, Buf.Contents, Buf.Valid, NextMsg;
      TakenParse(cfg, received, delivered, buf.Contents());
    }

    /** What the client can tell once there is nothing more to consume. */
    lemma Settled(events: seq<ReadEvent>)
      requires Valid() && state != MsgReady
      requires endOfInput ==> received == Stream(events) && EndOfInput in events
      requires !endOfInput ==> received <= Stream(events)
      requires state == ReadNeeded ==> received == Stream(events) && EndOfInput !in events
      ensures
        var p := Parse(cfg, Stream(events));
        && delivered == p.msgs
        && (p.invalid.None? ==>
          state == (if EndOfInput in events then AtEnd else ReadNeeded) && buf.Contents() == p.rest)
        && (p.invalid.Some? ==> state == DataInvalid && invalidReason == p.invalid)
    {
      hide Taken, ConfigOk, Buf.Contents, Buf.Valid, NextMsg, Stream, Parse;
      ParseSoFar();
      if state == DataInvalid {
        var all := Stream(events);
        assert all == received + all[|received|..];
        InvalidStays(cfg, received, all[|received|..]);
      }
    }
  }

  /** What a client may call; reads and consumes only in the states that allow them. */
  datatype Call = DoRead(e: ReadEvent) | DoConsume | DoReset(hasFd: bool)

  ghost predicate CallFits(c: Call, readSize: nat) {
    c.DoRead? && c.e.Chunk? ==> 0 < |c.e.bytes| <= readSize
  }

  ghost predicate ReadsFit(events: seq<ReadEvent>, readSize: nat) {
    forall i :: 0 <= i < |events| && events[i].Chunk? ==> 0 < |events[i].bytes| <= readSize
  }

  /** The bytes that arrive before the end of input. */
  ghost function Stream(events: seq<ReadEvent>): seq<byte> {
    if events == [] || events[0] == EndOfInput then []
    else (if events[0].Chunk? then events[0].bytes else []) + Stream(events[1..])
  }

  /** No parse of what came with fewer than k read events finds invalid data. */
  ghost predicate ValidBefore(cfg: Config, events: seq<ReadEvent>, k: nat)
    requires ConfigOk(cfg)
  {
    k <= |events| && forall j: nat :: j < k ==> Parse(cfg, Stream(events[..j])).invalid.None?
  }

  /** The k-th read event brings the first invalid data. */
  ghost predicate FirstInvalid(cfg: Config, events: seq<ReadEvent>, k: nat)
    requires ConfigOk(cfg)
  {
    ValidBefore(cfg, events, k) && Parse(cfg, Stream(events[..k])).invalid.Some?
  }

  /** After i read events. */
  ghost predicate SoFar(events: seq<ReadEvent>, i: nat, received: seq<byte>, endOfInput: bool) {
    && i <= |events|
    && (endOfInput ==> received == Stream(events) && EndOfInput in events)
    && (!endOfInput ==> received + Stream(events[i..]) == Stream(events) && EndOfInput !in events[..i])
  }

  lemma SoFarStart(events: seq<ReadEvent>)
    ensures SoFar(events, 0, [], false) && Stream(events[..0]) == []
  {
  }

  lemma SoFarStep(events: seq<ReadEvent>, i: nat, received: seq<byte>, readSize: nat)
    requires i < |events| && SoFar(events, i, received, false) && ReadsFit(events, readSize)
    ensures EndOfInput !in events[..i] && (events[i].Chunk? ==> 0 < |events[i].bytes| <= readSize)
    ensures var received' := if events[i].Chunk? then received + events[i].bytes else received;
      SoFar(events, i + 1, received', events[i].EndOfInput?)
  {
  }

  lemma {:induction false} StreamSnoc(events: seq<ReadEvent>, i: nat)
    requires i < |events| && EndOfInput !in events[..i]
    ensures Stream(events[..i + 1]) == Stream(events[..i]) + if events[i].Chunk? then events[i].bytes else []
    decreases i
  {
    if i == 0 {
      assert events[..1][1..] == [];
    } else {
      StreamSnoc(events[1..], i - 1);
      assert events[..i][1..] == events[1..][..i - 1] && events[..i + 1][1..] == events[1..][..i];
      assert events[0] in events[..i];
    }
  }

  lemma SoFarEnd(events: seq<ReadEvent>, i: nat, received: seq<byte>, endOfInput: bool)
    requires SoFar(events, i, received, endOfInput)
    ensures endOfInput ==> received == Stream(events) && EndOfInput in events
    ensures !endOfInput ==> received <= Stream(events)
    ensures !endOfInput && i == |events| ==> received == Stream(events) && EndOfInput !in events
  {
  }

  lemma NoSizeKnown(cfg: Config, data: seq<byte>)
    ensures SizeKnown(cfg, data, None)
  {
  }

  lemma PositiveField(cfg: Config)
    requires ConfigOk(cfg)
    ensures cfg.sizeFieldSize > 0
  {
  }

  lemma FreshSound(cfg: Config, hasFd: bool)
    requires ConfigOk(cfg)
    ensures Sound(cfg, Fields(if hasFd then ReadNeeded else AtEnd, !hasFd, 0, 0, 0, None, None), [])
    ensures Taken(cfg, [], [], [])
  {
  }

  lemma Waiting(cfg: Config, f: Fields, data: seq<byte>)
    requires Sound(cfg, f, data) && f.state == ReadNeeded
    ensures SizeKnown(cfg, data, f.msgBodySize) && NextMsg(cfg, data).NeedMore? && NothingReady(f) && !f.endOfInput
  {
  }

  lemma HasReady(cfg: Config, f: Fields, data: seq<byte>)
    requires ConfigOk(cfg) && Sound(cfg, f, data) && f.state == MsgReady
    ensures NextMsg(cfg, data).Ready? && f.trailingDataSize == 0
    ensures 0 < f.readyMsgOffset + f.readyMsgSize == FrameSize(cfg, NextMsg(cfg, data)) <= |data|
    ensures MsgIn(cfg, data) == data[f.readyMsgOffset..f.readyMsgOffset + f.readyMsgSize]
  {
  }

  lemma AdvanceSound(cfg: Config, data: seq<byte>, r: GetMsgResult, size: Option<nat>, reason: Option<InvalidReason>,
      endOfInput: bool)
    requires Reports(cfg, data, r, size, reason) && SizeKnown(cfg, data, size)
    ensures r.MsgAt? ==>
      && r.offset + r.size <= |data| && r.trailing == 0
      && Sound(cfg, Fields(MsgReady, endOfInput, r.offset, r.size, 0, size, reason), data)
    ensures r == NoMsgReady ==>
      Sound(cfg, Fields(if endOfInput then AtEnd else ReadNeeded, endOfInput, 0, 0, 0, size, reason), data)
    ensures r == Invalid ==> Sound(cfg, Fields(DataInvalid, endOfInput, 0, 0, 0, size, reason), data)
  {
  }

  lemma SizeStays(cfg: Config, data: seq<byte>, more: seq<byte>, size: Option<nat>)
    requires SizeKnown(cfg, data, size)
    ensures SizeKnown(cfg, data + more, size)
  {
    if size.Some? {
      assert (data + more)[..cfg.sizeFieldSize] == data[..cfg.sizeFieldSize];
    }
  }
}
