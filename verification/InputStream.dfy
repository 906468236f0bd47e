/** A stream client of the daemon, from encoder to decoder. */
module InputStream {
  import opened BigEndian
  import opened Framing
  import opened StreamReader
  import opened WireFormat

  /** Messages encoded by a client and sent over a stream arrive unchanged and in order,
      however the stream is cut up, and nothing is left over. */
  method Receive(reader: StreamMsgReader, events: seq<ReadEvent>, ghost ms: seq<Message>) returns (got: seq<Decoded>)
    requires reader.Fresh() && reader.state == ReadNeeded && ReadsFit(events, reader.preferredReadSize)
    requires reader.cfg == InputStream(reader.cfg.maxMsgBodySize) && AllSendable(ms, reader.cfg.maxMsgBodySize)
    requires Stream(events) == Concat(Encodings(ms))
    modifies reader, reader.buf, reader.buf.storage
    ensures reader.Valid() && reader.buf.Contents() == []
    ensures reader.state == if EndOfInput in events then AtEnd else ReadNeeded
    ensures |got| == |ms| && forall i :: 0 <= i < |ms| ==> got[i] == Msg(ms[i])
  {
    hide Parse, Concat, Stream, Encodings, AllSendable, ReadsFit, StreamMsgReader.Valid;
    assert forall i :: 0 <= i < |ms| ==>
      Encodable(ms[i]) && ms[i].topic != [] by { Sendable(ms, reader.cfg.maxMsgBodySize); }
    EncodedStream(ms, reader.cfg.maxMsgBodySize);
    var msgs := reader.Feed(events);
    got := DecodeAll(msgs, ms);
  }

  method DecodeAll(msgs: seq<seq<byte>>, ghost ms: seq<Message>) returns (got: seq<Decoded>)
    requires forall i :: 0 <= i < |ms| ==> Encodable(ms[i]) && ms[i].topic != []
    requires msgs == Encodings(ms)
    ensures |got| == |ms| && forall i :: 0 <= i < |ms| ==> got[i] == Msg(ms[i])
  {
    hide Decode, Encode;
    got := [];
    for i := 0 to |msgs|
      invariant |got| == i && forall j :: 0 <= j < i ==> got[j] == Msg(ms[j])
    {
      DecodeOfEncode(ms[i]);
      got := got + [Decode(msgs[i])];
    }
  }

  lemma Sendable(ms: seq<Message>, maxBodySize: nat)
    requires AllSendable(ms, maxBodySize)
    ensures forall i :: 0 <= i < |ms| ==> Encodable(ms[i]) && ms[i].topic != []
  {
  }
}
