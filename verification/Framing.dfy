/** Messages preceded by a size field, parsed in one go: what reading a stream in pieces
    must agree with. */
module Framing {
  import opened BigEndian
  import opened Options

  /** The fixed properties of a message stream. */
  datatype Config = Config(
    sizeFieldSize: nat,
    sizeFieldIsSigned: bool,
    sizeIncludesSizeField: bool,
    includeSizeFieldInMsg: bool,
    maxMsgBodySize: nat)

  predicate ConfigOk(cfg: Config) {
    cfg.sizeFieldSize in {1, 2, 4, 8}
  }

  datatype InvalidReason = InvalidSizeField | MsgBodyTooLarge

  /** What the start of the data says. */
  datatype Next =
    | NeedMore
    | Bad(reason: InvalidReason)
    | Ready(bodySize: nat)

  /** The body size that a size field stands for.  A negative size, and one too small for
      the field it includes, is no size. */
  function BodySize(cfg: Config, field: seq<byte>): Next {
    var value := if cfg.sizeFieldIsSigned then Signed(field) else Unsigned(field);
    var body := if cfg.sizeIncludesSizeField then value - cfg.sizeFieldSize else value;
    if value < 0 || body < 0 then Bad(InvalidSizeField)
    else if body > cfg.maxMsgBodySize then Bad(MsgBodyTooLarge)
    else Ready(body)
  }

  function NextMsg(cfg: Config, data: seq<byte>): Next {
    if |data| < cfg.sizeFieldSize then NeedMore
    else
      var size := BodySize(cfg, data[..cfg.sizeFieldSize]);
      if size.Ready? && |data| < cfg.sizeFieldSize + size.bodySize then NeedMore else size
  }

  /** The bytes of a whole message, and the part of them that is handed out. */
  function FrameSize(cfg: Config, next: Next): nat
    requires next.Ready?
  {
    cfg.sizeFieldSize + next.bodySize
  }

  function MsgIn(cfg: Config, data: seq<byte>): seq<byte>
    requires NextMsg(cfg, data).Ready?
  {
    data[if cfg.includeSizeFieldInMsg then 0 else cfg.sizeFieldSize..FrameSize(cfg, NextMsg(cfg, data))]
  }

  datatype Parsed = Parsed(msgs: seq<seq<byte>>, rest: seq<byte>, invalid: Option<InvalidReason>)

  function Parse(cfg: Config, data: seq<byte>): Parsed
    requires ConfigOk(cfg)
    decreases |data|
  {
    match NextMsg(cfg, data)
    case NeedMore => Parsed([], data, None)
    case Bad(reason) => Parsed([], data, Some(reason))
    case Ready(_) =>
      var more := Parse(cfg, data[FrameSize(cfg, NextMsg(cfg, data))..]);
      more.(msgs := [MsgIn(cfg, data)] + more.msgs)
  }

  /** A body with its size in front is read back, with or without the size field. */
  lemma FrameRoundTrip(cfg: Config, field: seq<byte>, body: seq<byte>, more: seq<byte>)
    requires |field| == cfg.sizeFieldSize && |body| <= cfg.maxMsgBodySize
    requires (if cfg.sizeFieldIsSigned then Signed(field) else Unsigned(field)) ==
      if cfg.sizeIncludesSizeField then |field| + |body| else |body|
    ensures
      var data := field + body + more;
      && NextMsg(cfg, data) == Ready(|body|) && FrameSize(cfg, NextMsg(cfg, data)) == |field + body|
      && MsgIn(cfg, data) == if cfg.includeSizeFieldInMsg then field + body else body
  {
    hide Signed, Unsigned;
    assert (field + body + more)[..|field|] == field;
  }

  /** When the data is invalid. */
  lemma BadIff(cfg: Config, data: seq<byte>)
    requires |data| >= cfg.sizeFieldSize
    ensures
      var field := data[..cfg.sizeFieldSize];
      var size: int := if cfg.sizeFieldIsSigned then Signed(field) else Unsigned(field);
      var least := if cfg.sizeIncludesSizeField then cfg.sizeFieldSize else 0;
      && (NextMsg(cfg, data) == Bad(InvalidSizeField) <==> size < least)
      && (NextMsg(cfg, data) == Bad(MsgBodyTooLarge) <==> size > least + cfg.maxMsgBodySize)
  {
  }

  /** More data does not change a message, or an error, that is already there. */
  lemma NextStays(cfg: Config, data: seq<byte>, more: seq<byte>)
    requires !NextMsg(cfg, data).NeedMore?
    ensures NextMsg(cfg, data + more) == NextMsg(cfg, data)
    ensures NextMsg(cfg, data).Ready? ==>
      var n := FrameSize(cfg, NextMsg(cfg, data));
      MsgIn(cfg, data + more) == MsgIn(cfg, data) && (data + more)[n..] == data[n..] + more
  {
    assert (data + more)[..cfg.sizeFieldSize] == data[..cfg.sizeFieldSize];
  }

  lemma NeedMoreBound(cfg: Config, data: seq<byte>)
    requires ConfigOk(cfg) && NextMsg(cfg, data).NeedMore?
    ensures |data| < cfg.sizeFieldSize + cfg.maxMsgBodySize || |data| < cfg.sizeFieldSize
  {
  }

  // ---------------------------------------------------------------- messages taken so far

  /** Taking the given messages off the front of all leaves left. */
  ghost predicate Taken(cfg: Config, all: seq<byte>, msgs: seq<seq<byte>>, left: seq<byte>)
    decreases |msgs|
  {
    if msgs == [] then all == left
    else
      && NextMsg(cfg, all).Ready?
      && MsgIn(cfg, all) == msgs[0]
      && Taken(cfg, all[FrameSize(cfg, NextMsg(cfg, all))..], msgs[1..], left)
  }

  lemma {:induction false} TakenParse(cfg: Config, all: seq<byte>, msgs: seq<seq<byte>>, left: seq<byte>)
    requires ConfigOk(cfg) && Taken(cfg, all, msgs, left)
    ensures var p := Parse(cfg, left);
      Parse(cfg, all) == Parsed(msgs + p.msgs, p.rest, p.invalid)
    decreases |msgs|
  {
    if msgs == [] {
      assert msgs + Parse(cfg, left).msgs == Parse(cfg, left).msgs;
    } else {
      TakenParse(cfg, all[FrameSize(cfg, NextMsg(cfg, all))..], msgs[1..], left);
      assert msgs + Parse(cfg, left).msgs == [msgs[0]] + (msgs[1..] + Parse(cfg, left).msgs);
    }
  }

  lemma {:induction false} TakenMore(cfg: Config, all: seq<byte>, msgs: seq<seq<byte>>, left: seq<byte>,
      more: seq<byte>)
    requires Taken(cfg, all, msgs, left)
    ensures Taken(cfg, all + more, msgs, left + more)
    decreases |msgs|
  {
    if msgs == [] {
    } else {
      NextStays(cfg, all, more);
      TakenMore(cfg, all[FrameSize(cfg, NextMsg(cfg, all))..], msgs[1..], left, more);
    }
  }

  lemma {:induction false} TakenOne(cfg: Config, all: seq<byte>, msgs: seq<seq<byte>>, left: seq<byte>)
    requires Taken(cfg, all, msgs, left) && NextMsg(cfg, left).Ready?
    ensures Taken(cfg, all, msgs + [MsgIn(cfg, left)], left[FrameSize(cfg, NextMsg(cfg, left))..])
    decreases |msgs|
  {
    var msgs' := msgs + [MsgIn(cfg, left)];
    if msgs == [] {
      assert msgs'[1..] == [];
    } else {
      TakenOne(cfg, all[FrameSize(cfg, NextMsg(cfg, all))..], msgs[1..], left);
      assert msgs'[1..] == msgs[1..] + [MsgIn(cfg, left)];
    }
  }

  /** Once the data is invalid, nothing after it matters. */
  lemma {:induction false} InvalidStays(cfg: Config, data: seq<byte>, more: seq<byte>)
    requires ConfigOk(cfg) && Parse(cfg, data).invalid.Some?
    ensures var p := Parse(cfg, data);
      Parse(cfg, data + more) == Parsed(p.msgs, p.rest + more, p.invalid)
    decreases |data|
  {
    NextStays(cfg, data, more);
    if NextMsg(cfg, data).Ready? {
      InvalidStays(cfg, data[FrameSize(cfg, NextMsg(cfg, data))..], more);
    }
  }

  // ------------------------------------------------------------------ streams of frames

  /** A byte string that is exactly one message with its size field. */
  ghost predicate IsFrame(cfg: Config, frame: seq<byte>) {
    NextMsg(cfg, frame).Ready? && FrameSize(cfg, NextMsg(cfg, frame)) == |frame|
  }

  ghost predicate AllFrames(cfg: Config, frames: seq<seq<byte>>) {
    forall i :: 0 <= i < |frames| ==> IsFrame(cfg, frames[i])
  }

  ghost function Concat(frames: seq<seq<byte>>): seq<byte> {
    if frames == [] then [] else frames[0] + Concat(frames[1..])
  }

  ghost function MsgsIn(cfg: Config, frames: seq<seq<byte>>): seq<seq<byte>>
    requires AllFrames(cfg, frames)
  {
    if frames == [] then [] else [MsgIn(cfg, frames[0])] + MsgsIn(cfg, frames[1..])
  }

  /** A stream of whole frames gives back their messages and leaves nothing over. */
  lemma {:induction false} FramesParse(cfg: Config, frames: seq<seq<byte>>)
    requires ConfigOk(cfg) && AllFrames(cfg, frames)
    ensures Parse(cfg, Concat(frames)) == Parsed(MsgsIn(cfg, frames), [], None)
    decreases |frames|
  {
    if frames == [] {
    } else {
      FramesParse(cfg, frames[1..]);
      NextStays(cfg, frames[0], Concat(frames[1..]));
      assert frames[0][|frames[0]|..] + Concat(frames[1..]) == Concat(frames[1..]);
    }
  }
}
