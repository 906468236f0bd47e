/** The datagram format of the input sockets: the client's encoder and the daemon's
    decoder. */
module WireFormat {
  import opened BigEndian
  import opened Framing
  import opened Options

  /** A message as a client sends it; with a partition key, or for any partition. */
  datatype Message = Message(
    partitionKey: Option<int>,
    topic: seq<byte>,
    timestamp: int,
    key: seq<byte>,
    value: seq<byte>)

  const MAX_TOPIC_SIZE := 0x7FFF
  const MAX_MSG_SIZE := 0x7FFF_FFFF
  const ANY_PARTITION_FIXED_BYTES := 28
  const PARTITION_KEY_FIXED_BYTES := 32
  const ANY_PARTITION_API_KEY := 256
  const PARTITION_KEY_API_KEY := 257

  datatype Encoded = Ok(bytes: seq<byte>) | TopicTooLarge | MsgTooLarge | PackError

  datatype Decoded = Msg(msg: Message) | Malformed | UnsupportedApiKey(apiKey: int) | UnsupportedVersion(version: int)

  // ------------------------------------------------------------------------ the layout

  function MsgSize(m: Message): nat {
    (if m.partitionKey.Some? then PARTITION_KEY_FIXED_BYTES else ANY_PARTITION_FIXED_BYTES)
    + |m.topic| + |m.key| + |m.value|
  }

  function ApiKey(m: Message): int {
    if m.partitionKey.Some? then PARTITION_KEY_API_KEY else ANY_PARTITION_API_KEY
  }

  predicate Encodable(m: Message) {
    && |m.topic| <= MAX_TOPIC_SIZE
    && MsgSize(m) <= MAX_MSG_SIZE
    && FitsSigned(m.timestamp, 8)
    && (m.partitionKey.Some? ==> FitsSigned(m.partitionKey.value, 4))
  }

  function ValuePart(value: seq<byte>): seq<byte>
    requires |value| <= MAX_MSG_SIZE
  {
    Fits();
    ToSigned(|value|, 4) + value
  }

  function KeyPart(key: seq<byte>, value: seq<byte>): seq<byte>
    requires |key| <= MAX_MSG_SIZE && |value| <= MAX_MSG_SIZE
  {
    Fits();
    ToSigned(|key|, 4) + (key + ValuePart(value))
  }

  function TopicPart(m: Message): seq<byte>
    requires Encodable(m)
  {
    Fits();
    ToSigned(|m.topic|, 2) + (m.topic + (ToSigned(m.timestamp, 8) + KeyPart(m.key, m.value)))
  }

  function RoutingPart(m: Message): seq<byte>
    requires Encodable(m)
  {
    if m.partitionKey.Some? then ToSigned(m.partitionKey.value, 4) + TopicPart(m) else TopicPart(m)
  }

  /** The message on the wire. */
  function Encode(m: Message): (bytes: seq<byte>)
    requires Encodable(m)
    ensures |bytes| == MsgSize(m)
  {
    Fits();
    ToSigned(MsgSize(m), 4) + (ToSigned(ApiKey(m), 2) + (ToSigned(0, 2) + (ToSigned(0, 2) + RoutingPart(m))))
  }

  lemma Fits()
    ensures forall n: nat :: n <= MAX_TOPIC_SIZE <==> FitsSigned(n, 2)
    ensures forall n: nat :: n <= MAX_MSG_SIZE <==> FitsSigned(n, 4)
    ensures FitsSigned(ANY_PARTITION_API_KEY, 2) && FitsSigned(PARTITION_KEY_API_KEY, 2)
  {
  }

  // ------------------------------------------------------------------------ the encoder

  method CreateAnyPartitionMsg(topic: seq<byte>, timestamp: int, key: seq<byte>, value: seq<byte>) returns (r: Encoded)
    ensures EncodesTo(Message(None, topic, timestamp, key, value), r)
  {
    if |topic| > MAX_TOPIC_SIZE {
      return TopicTooLarge;
    }
    hide ToSigned, Encode;
    var msgSize := ANY_PARTITION_FIXED_BYTES + |topic| + |key| + |value|;
    if msgSize > MAX_MSG_SIZE {
      return MsgTooLarge;
    }
    Fits();
    var buf := ToSigned(msgSize, 4) + ToSigned(ANY_PARTITION_API_KEY, 2) + ToSigned(0, 2) + ToSigned(0, 2);
    assert buf == buf + [];
    buf := buf + ToSigned(|topic|, 2);
    buf := buf + topic;
    if !FitsSigned(timestamp, 8) {
      return PackError;
    }
    buf := buf + ToSigned(timestamp, 8) + ToSigned(|key|, 4);
    buf := buf + key;
    buf := buf + ToSigned(|value|, 4);
    buf := buf + value;
    Layout(Message(None, topic, timestamp, key, value), []);
    return Ok(buf);
  }

  method CreatePartitionKeyMsg(partitionKey: int, topic: seq<byte>, timestamp: int, key: seq<byte>, value: seq<byte>)
    returns (r: Encoded)
    ensures EncodesTo(Message(Some(partitionKey), topic, timestamp, key, value), r)
  {
    if |topic| > MAX_TOPIC_SIZE {
      return TopicTooLarge;
    }
    hide ToSigned, Encode;
    var msgSize := PARTITION_KEY_FIXED_BYTES + |topic| + |key| + |value|;
    if msgSize > MAX_MSG_SIZE {
      return MsgTooLarge;
    }
    Fits();
    if !FitsSigned(partitionKey, 4) {
      return PackError;
    }
    var buf := ToSigned(msgSize, 4) + ToSigned(PARTITION_KEY_API_KEY, 2) + ToSigned(0, 2) + ToSigned(0, 2);
    buf := buf + ToSigned(partitionKey, 4) + ToSigned(|topic|, 2);
    buf := buf + topic;
    if !FitsSigned(timestamp, 8) {
      return PackError;
    }
    buf := buf + ToSigned(timestamp, 8) + ToSigned(|key|, 4);
    buf := buf + key;
    buf := buf + ToSigned(|value|, 4);
    buf := buf + value;
    Layout(Message(Some(partitionKey), topic, timestamp, key, value), ToSigned(partitionKey, 4));
    return Ok(buf);
  }

  /** The bytes of a message that can be encoded, and otherwise the first limit that it
      breaks. */
  ghost predicate EncodesTo(m: Message, r: Encoded) {
    if |m.topic| > MAX_TOPIC_SIZE then r == TopicTooLarge
    else if MsgSize(m) > MAX_MSG_SIZE then r == MsgTooLarge
    else if Encodable(m) then r == Ok(Encode(m))
    else r == PackError
  }

  /** The fields one after the other. */
  lemma Layout(m: Message, routing: seq<byte>)
    requires Encodable(m)
    requires routing == if m.partitionKey.Some? then ToSigned(m.partitionKey.value, 4) else []
    requires |m.topic| <= MAX_TOPIC_SIZE && |m.key| <= MAX_MSG_SIZE && |m.value| <= MAX_MSG_SIZE &&
      MsgSize(m) <= MAX_MSG_SIZE
    requires FitsSigned(|m.topic|, 2) && FitsSigned(|m.key|, 4) && FitsSigned(|m.value|, 4)
    requires FitsSigned(MsgSize(m), 4) && FitsSigned(ApiKey(m), 2) && FitsSigned(0, 2)
    ensures Encode(m) ==
      ToSigned(MsgSize(m), 4) + ToSigned(ApiKey(m), 2) + ToSigned(0, 2) + ToSigned(0, 2) + routing
      + ToSigned(|m.topic|, 2) + m.topic + ToSigned(m.timestamp, 8) + ToSigned(|m.key|, 4) + m.key
      + ToSigned(|m.value|, 4) + m.value
  {
    hide ToSigned;
    assert routing + TopicPart(m) == RoutingPart(m);
  }

  /** What stands where: size, API key, version, flags and partition key at fixed places;
      then topic, timestamp, key and value, each but the timestamp after its size. */
  lemma FieldsAt(m: Message)
    requires Encodable(m)
    ensures
      var b, at := Encode(m), if m.partitionKey.Some? then 14 else 10;
      && |b| == at + 18 + |m.topic| + |m.key| + |m.value|
      && Signed(b[0..4]) == |b|
      && Signed(b[4..6]) == (if m.partitionKey.Some? then 257 else 256)
      && Signed(b[6..8]) == 0 && Signed(b[8..10]) == 0
      && (m.partitionKey.Some? ==> Signed(b[10..14]) == m.partitionKey.value)
      && TopicAt(m, b[at..])
  {
    hide Signed, ToSigned, TopicPart, TopicAt;
    Fits();
    var flagged := ToSigned(0, 2) + RoutingPart(m);
    var versioned := ToSigned(0, 2) + flagged;
    FieldOf(MsgSize(m), 4, ToSigned(ApiKey(m), 2) + versioned);
    FieldOf(ApiKey(m), 2, versioned);
    FieldOf(0, 2, flagged);
    FieldOf(0, 2, RoutingPart(m));
    TopicFields(m);
    var b := Encode(m);
    assert b[4..][..2] == b[4..6] && b[4..][2..] == b[6..] && b[6..][..2] == b[6..8];
    assert b[6..][2..] == b[8..] && b[8..][..2] == b[8..10] && b[8..][2..] == b[10..];
    if m.partitionKey.Some? {
      FieldOf(m.partitionKey.value, 4, TopicPart(m));
      assert b[10..][..4] == b[10..14] && b[10..][4..] == b[14..];
    }
  }

  ghost predicate TopicAt(m: Message, b: seq<byte>) {
    && |b| == 18 + |m.topic| + |m.key| + |m.value|
    && Signed(b[0..2]) == |m.topic| && b[2..2 + |m.topic|] == m.topic
    && var late := b[2 + |m.topic|..];
       && Signed(late[0..8]) == m.timestamp
       && Signed(late[8..12]) == |m.key| && late[12..12 + |m.key|] == m.key
       && var last := late[12 + |m.key|..];
          Signed(last[0..4]) == |m.value| && last[4..] == m.value
  }

  lemma TopicFields(m: Message)
    requires Encodable(m)
    ensures TopicAt(m, TopicPart(m))
  {
    hide Signed, ToSigned;
    Fits();
    var b := TopicPart(m);
    var late := ToSigned(m.timestamp, 8) + KeyPart(m.key, m.value);
    FieldOf(|m.topic|, 2, m.topic + late);
    assert b[2..2 + |m.topic|] == m.topic && b[2 + |m.topic|..] == late;
    FieldOf(m.timestamp, 8, KeyPart(m.key, m.value));
    FieldOf(|m.key|, 4, m.key + ValuePart(m.value));
    assert late[8..12] == late[8..][..4] && late[12..12 + |m.key|] == m.key;
    assert late[12 + |m.key|..] == ValuePart(m.value);
    FieldOf(|m.value|, 4, m.value);
  }

  // ------------------------------------------------------------------------ the decoder

  /** A size, then exactly that many bytes to the end. */
  function DecodeValue(d: seq<byte>): Option<seq<byte>> {
    if |d| < 4 then None
    else
      var size, rest := Signed(d[..4]), d[4..];
      if size < 0 || |rest| != size then None else Some(rest)
  }

  function DecodeKey(d: seq<byte>): Option<(seq<byte>, seq<byte>)> {
    if |d| < 4 then None
    else
      var size, rest := Signed(d[..4]), d[4..];
      if size < 0 || |rest| < size then None
      else
        match DecodeValue(rest[size..])
        case None => None
        case Some(value) => Some((rest[..size], value))
  }

  /** Topic, timestamp, key and value.  An empty topic is malformed. */
  function DecodeTopic(partitionKey: Option<int>, d: seq<byte>): Decoded {
    if |d| < 2 then Malformed
    else
      var size, rest := Signed(d[..2]), d[2..];
      if size <= 0 || |rest| < size then Malformed
      else
        var topic, rest := rest[..size], rest[size..];
        if |rest| < 8 then Malformed
        else
          match DecodeKey(rest[8..])
          case None => Malformed
          case Some((key, value)) => Msg(Message(partitionKey, topic, Signed(rest[..8]), key, value))
  }

  function DecodeAnyPartition(d: seq<byte>): Decoded {
    if |d| < 2 || Signed(d[..2]) != 0 then Malformed else DecodeTopic(None, d[2..])
  }

  function DecodePartitionKey(d: seq<byte>): Decoded {
    if |d| < 2 || Signed(d[..2]) != 0 then Malformed
    else
      var rest := d[2..];
      if |rest| < 4 then Malformed else DecodeTopic(Some(Signed(rest[..4])), rest[4..])
  }

  function Decode(dg: seq<byte>): Decoded {
    if |dg| < 8 || Signed(dg[..4]) != |dg| then Malformed
    else
      var apiKey, version, rest := Signed(dg[4..][..2]), Signed(dg[4..][2..][..2]), dg[4..][2..][2..];
      if apiKey == ANY_PARTITION_API_KEY then
        if version == 0 then DecodeAnyPartition(rest) else UnsupportedVersion(version)
      else if apiKey == PARTITION_KEY_API_KEY then
        if version == 0 then DecodePartitionKey(rest) else UnsupportedVersion(version)
      else
        UnsupportedApiKey(apiKey)
  }

  // ----------------------------------------------------------------------- round trips

  /** A field in front, read back and cut off. */
  lemma FieldOf(v: int, size: nat, rest: seq<byte>)
    requires FitsSigned(v, size)
    ensures var d := ToSigned(v, size) + rest;
      |d| >= size && Signed(d[..size]) == v && d[size..] == rest
  {
    SignedOfTo(v, size);
    assert (ToSigned(v, size) + rest)[..size] == ToSigned(v, size);
  }

  lemma FieldBack(d: seq<byte>, size: nat)
    requires |d| >= size
    ensures FitsSigned(Signed(d[..size]), size) && d == ToSigned(Signed(d[..size]), size) + d[size..]
  {
    ToOfSigned(d[..size]);
  }

  lemma KeyRoundTrip(key: seq<byte>, value: seq<byte>)
    requires |key| <= MAX_MSG_SIZE && |value| <= MAX_MSG_SIZE
    ensures DecodeKey(KeyPart(key, value)) == Some((key, value))
  {
    hide Signed, ToSigned;
    Fits();
    FieldOf(|key|, 4, key + ValuePart(value));
    FieldOf(|value|, 4, value);
    assert (key + ValuePart(value))[..|key|] == key && (key + ValuePart(value))[|key|..] == ValuePart(value);
  }

  lemma TopicRoundTrip(m: Message)
    requires Encodable(m)
    ensures DecodeTopic(m.partitionKey, TopicPart(m)) == if m.topic == [] then Malformed else Msg(m)
  {
    hide Signed, ToSigned, DecodeKey, KeyPart;
    Fits();
    var late := ToSigned(m.timestamp, 8) + KeyPart(m.key, m.value);
    FieldOf(|m.topic|, 2, m.topic + late);
    assert (m.topic + late)[..|m.topic|] == m.topic && (m.topic + late)[|m.topic|..] == late;
    FieldOf(m.timestamp, 8, KeyPart(m.key, m.value));
    KeyRoundTrip(m.key, m.value);
  }

  /** The daemon reads back what the client wrote, except that it rejects an empty topic. */
  lemma DecodeOfEncode(m: Message)
    requires Encodable(m)
    ensures Decode(Encode(m)) == if m.topic == [] then Malformed else Msg(m)
  {
    hide Signed, ToSigned, DecodeTopic, TopicPart;
    Fits();
    var flagged := ToSigned(0, 2) + RoutingPart(m);
    var versioned := ToSigned(0, 2) + flagged;
    FieldOf(MsgSize(m), 4, ToSigned(ApiKey(m), 2) + versioned);
    FieldOf(ApiKey(m), 2, versioned);
    FieldOf(0, 2, flagged);
    FieldOf(0, 2, RoutingPart(m));
    if m.partitionKey.Some? {
      FieldOf(m.partitionKey.value, 4, TopicPart(m));
    }
    TopicRoundTrip(m);
  }

  lemma KeyBack(d: seq<byte>, key: seq<byte>, value: seq<byte>)
    requires DecodeKey(d) == Some((key, value))
    ensures |key| <= MAX_MSG_SIZE && |value| <= MAX_MSG_SIZE && d == KeyPart(key, value)
  {
    hide Signed, ToSigned;
    Fits();
    FieldBack(d, 4);
    var rest := d[4..];
    FieldBack(rest[|key|..], 4);
    assert rest == rest[..|key|] + rest[|key|..];
  }

  lemma TopicBack(partitionKey: Option<int>, d: seq<byte>, m: Message)
    requires DecodeTopic(partitionKey, d) == Msg(m)
    ensures m.partitionKey == partitionKey && 0 < |m.topic| <= MAX_TOPIC_SIZE && FitsSigned(m.timestamp, 8)
    ensures |m.key| <= MAX_MSG_SIZE && |m.value| <= MAX_MSG_SIZE && FitsSigned(|m.topic|, 2)
    ensures d == ToSigned(|m.topic|, 2) + (m.topic + (ToSigned(m.timestamp, 8) + KeyPart(m.key, m.value)))
  {
    hide Signed, ToSigned, DecodeKey, KeyPart;
    Fits();
    FieldBack(d, 2);
    var rest := d[2..];
    var late := rest[|m.topic|..];
    assert rest == m.topic + late;
    FieldBack(late, 8);
    KeyBack(late[8..], m.key, m.value);
  }

  /** The daemon accepts nothing but what a client's encoder produces. */
  lemma EncodeOfDecode(dg: seq<byte>, m: Message)
    requires Decode(dg) == Msg(m)
    ensures Encodable(m) && m.topic != [] && Encode(m) == dg
  {
    hide Signed, ToSigned, DecodeTopic;
    Fits();
    var d1, d2, d3 := dg[4..], dg[4..][2..], dg[4..][2..][2..];
    FieldBack(dg, 4);
    FieldBack(d1, 2);
    FieldBack(d2, 2);
    FieldBack(d3, 2);
    var d4 := d3[2..];
    if Signed(d1[..2]) == ANY_PARTITION_API_KEY {
      TopicBack(None, d4, m);
      SameSize(dg, m, d4, d4);
    } else {
      FieldBack(d4, 4);
      TopicBack(Some(Signed(d4[..4])), d4[4..], m);
      SameSize(dg, m, d4, d4[4..]);
    }
  }

  lemma SameSize(dg: seq<byte>, m: Message, routed: seq<byte>, tail: seq<byte>)
    requires |dg| == |routed| + 10 && |routed| == |tail| + (if m.partitionKey.Some? then 4 else 0)
    requires |m.topic| <= MAX_TOPIC_SIZE && FitsSigned(m.timestamp, 8)
    requires |m.key| <= MAX_MSG_SIZE && |m.value| <= MAX_MSG_SIZE && FitsSigned(|m.topic|, 2)
    requires tail == ToSigned(|m.topic|, 2) + (m.topic + (ToSigned(m.timestamp, 8) + KeyPart(m.key, m.value)))
    ensures |dg| == MsgSize(m)
  {
  }

  /** The datagrams the daemon accepts are exactly the encodings of messages with a topic. */
  lemma AcceptedIff(dg: seq<byte>, m: Message)
    ensures Decode(dg) == Msg(m) <==> Encodable(m) && m.topic != [] && dg == Encode(m)
  {
    if Decode(dg) == Msg(m) {
      EncodeOfDecode(dg, m);
    }
    if Encodable(m) && m.topic != [] && dg == Encode(m) {
      DecodeOfEncode(m);
    }
  }

  /** What is said about datagrams that are complete and not accepted. */
  lemma RejectedAs(dg: seq<byte>)
    requires |dg| >= 8 && Signed(dg[..4]) == |dg|
    ensures
      var apiKey, version := Signed(dg[4..6]), Signed(dg[6..8]);
      && (Decode(dg).UnsupportedApiKey? <==> apiKey != 256 && apiKey != 257)
      && (Decode(dg).UnsupportedApiKey? ==> Decode(dg).apiKey == apiKey)
      && (Decode(dg).UnsupportedVersion? <==> (apiKey == 256 || apiKey == 257) && version != 0)
      && (Decode(dg).UnsupportedVersion? ==> Decode(dg).version == version)
  {
    hide Signed, DecodeKey;
    assert dg[4..][..2] == dg[4..6] && dg[4..][2..][..2] == dg[6..8];
  }

  // ------------------------------------------------------------------------- streams

  /** The framing of the daemon's stream sockets: a signed 32-bit size that counts itself
      and is part of the message. */
  function InputStream(maxBodySize: nat): Config {
    Config(4, true, true, true, maxBodySize)
  }

  lemma EncodedIsFrame(m: Message, maxBodySize: nat)
    requires Encodable(m)
    ensures IsFrame(InputStream(maxBodySize), Encode(m)) <==> MsgSize(m) - 4 <= maxBodySize
    ensures IsFrame(InputStream(maxBodySize), Encode(m)) ==> MsgIn(InputStream(maxBodySize), Encode(m)) == Encode(m)
  {
    Fits();
    FieldOf(MsgSize(m), 4, Encode(m)[4..]);
    assert Encode(m) == ToSigned(MsgSize(m), 4) + Encode(m)[4..];
  }

  ghost predicate AllSendable(ms: seq<Message>, maxBodySize: nat) {
    forall i :: 0 <= i < |ms| ==> Encodable(ms[i]) && ms[i].topic != [] && MsgSize(ms[i]) - 4 <= maxBodySize
  }

  ghost function Encodings(ms: seq<Message>): (r: seq<seq<byte>>)
    requires forall i :: 0 <= i < |ms| ==> Encodable(ms[i])
    ensures |r| == |ms|
  {
    seq(|ms|, i requires 0 <= i < |ms| => Encode(ms[i]))
  }

  /** A stream of encoded messages is cut into exactly those messages. */
  lemma EncodedStream(ms: seq<Message>, maxBodySize: nat)
    requires AllSendable(ms, maxBodySize)
    ensures Parse(InputStream(maxBodySize), Concat(Encodings(ms))) == Parsed(Encodings(ms), [], None)
  {
    hide Encode, Parse, NextMsg;
    var cfg, frames := InputStream(maxBodySize), Encodings(ms);
    forall i | 0 <= i < |frames| ensures IsFrame(cfg, frames[i]) && MsgIn(cfg, frames[i]) == frames[i] {
      EncodedIsFrame(ms[i], maxBodySize);
    }
    FramesParse(cfg, frames);
    WholeMsgs(cfg, frames);
  }

  lemma {:induction false} WholeMsgs(cfg: Config, frames: seq<seq<byte>>)
    requires AllFrames(cfg, frames) && forall i :: 0 <= i < |frames| ==> MsgIn(cfg, frames[i]) == frames[i]
    ensures MsgsIn(cfg, frames) == frames
    decreases |frames|
  {
    if frames == [] {
    } else {
      WholeMsgs(cfg, frames[1..]);
    }
  }
}
