/** Length-prefixed framing: what LengthFieldCodec sends, and what it makes of a byte stream. */
module Codec {
  import opened Bytes
  import opened Buffers

  // ---------- What goes on the wire ----------

  /** LengthFieldCodec::Send's frame; the length is cast to uint32_t. */
  function Frame(m: Data): (f: Data)
    ensures |f| == 4 + |m|
  {
    BigEndian(|m| % WORD) + m
  }

  function Frames(ms: seq<Data>): Data {
    if ms == [] then [] else Frame(ms[0]) + Frames(ms[1..])
  }

  /** Messages that a decoder limited to maxLen can be sent. */
  predicate Deliverable(m: Data, maxLen: nat) {
    |m| <= maxLen && |m| < HALF_WORD
  }

  ghost predicate AllDeliverable(ms: seq<Data>, maxLen: nat) {
    forall i :: 0 <= i < |ms| ==> Deliverable(ms[i], maxLen)
  }

  // ---------- What one turn of OnMessage's loop sees ----------

  datatype Head = Incomplete | Invalid | Complete(message: Data, rest: Data)

  function FirstFrame(s: Data, maxLen: nat): Head {
    if |s| < 4 then Incomplete
    else
      var len := Signed32(Unsigned32(s));
      if len < 0 || len > maxLen then Invalid
      else if |s| < 4 + len then Incomplete
      else Complete(s[4..4 + len], s[4 + len..])
  }

  // ---------- The whole-stream reference parser ----------

  datatype Parsed = Parsed(messages: seq<Data>, rest: Data, bad: bool)

  function Parse(s: Data, maxLen: nat): Parsed
    decreases |s|
  {
    match FirstFrame(s, maxLen)
    case Incomplete => Parsed([], s, false)
    case Invalid => Parsed([], s, true)
    case Complete(m, rest) =>
      var p := Parse(rest, maxLen);
      p.(messages := [m] + p.messages)
  }

  /** A complete first frame is exactly a deliverable message in front of the rest. */
  lemma FirstFrameIsFrame(s: Data, maxLen: nat)
    ensures FirstFrame(s, maxLen).Complete? ==>
              var h := FirstFrame(s, maxLen);
              s == Frame(h.message) + h.rest && Deliverable(h.message, maxLen)
  {
    if FirstFrame(s, maxLen).Complete? {
      var h := FirstFrame(s, maxLen);
      HeaderIsCanonical(s[..4]);
      assert Unsigned32(s[..4]) == Unsigned32(s) == |h.message|;
      assert s == s[..4] + (h.message + h.rest);
      assert s == Frame(h.message) + h.rest;
    }
  }

  /** Framing round-trips exactly for the deliverable messages: a longer one is refused or cut. */
  lemma FrameRoundTrip(m: Data, tail: Data, maxLen: nat)
    ensures FirstFrame(Frame(m) + tail, maxLen) == Complete(m, tail) <==> |m| <= maxLen && |m| < 0x8000_0000
  {
    var s := Frame(m) + tail;
    var len := |m| % WORD;
    assert s == BigEndian(len) + (m + tail);
    var x := Signed32(len);
    assert x % WORD == len;
    HeaderRoundTrip(x, m + tail);
    assert Signed32(Unsigned32(s)) == x;
    if Deliverable(m, maxLen) {
      assert s[4..4 + |m|] == m && s[4 + |m|..] == tail;
    } else if FirstFrame(s, maxLen).Complete? {
      assert |FirstFrame(s, maxLen).message| == x;
    }
  }

  /** The branches of the loop body, in terms of the peeked header. */
  lemma FirstFrameByHeader(s: Data, maxLen: nat)
    ensures |s| < 4 ==> FirstFrame(s, maxLen) == Incomplete
    ensures |s| >= 4 ==>
              var len := Signed32(Unsigned32(s));
              FirstFrame(s, maxLen) ==
              if len < 0 || len > maxLen then Invalid
              else if |s| < 4 + len then Incomplete
              else Complete(s[4..4 + len], s[4 + len..])
  {
  }

  lemma ParseUnfold(s: Data, m: Data, rest: Data, maxLen: nat)
    requires FirstFrame(s, maxLen) == Complete(m, rest)
    ensures var p := Parse(rest, maxLen);
            Parse(s, maxLen) == Parsed([m] + p.messages, p.rest, p.bad)
  {
  }

  /** More bytes behind the stream change neither a complete first frame nor a bad header. */
  lemma FirstFrameExtends(a: Data, b: Data, maxLen: nat)
    ensures FirstFrame(a, maxLen).Invalid? ==> FirstFrame(a + b, maxLen).Invalid?
    ensures FirstFrame(a, maxLen).Complete? ==>
              var h := FirstFrame(a, maxLen);
              FirstFrame(a + b, maxLen) == Complete(h.message, h.rest + b)
  {
  }

  /** Parsing a stream in two pieces is parsing it whole. */
  lemma {:induction false} ParseExtends(a: Data, b: Data, maxLen: nat)
    ensures var p, q := Parse(a, maxLen), Parse(Parse(a, maxLen).rest + b, maxLen);
            Parse(a + b, maxLen) == Parsed(p.messages + q.messages, q.rest, q.bad)
    ensures Parse(a, maxLen).bad ==>
              Parse(Parse(a, maxLen).rest + b, maxLen) == Parsed([], Parse(a, maxLen).rest + b, true)
    decreases |a|
  {
    FirstFrameExtends(a, b, maxLen);
    match FirstFrame(a, maxLen)
    case Incomplete =>
      assert [] + Parse(a + b, maxLen).messages == Parse(a + b, maxLen).messages;
    case Invalid =>
    case Complete(m, rest) =>
      ParseExtends(rest, b, maxLen);
      var p, q := Parse(rest, maxLen), Parse(Parse(rest, maxLen).rest + b, maxLen);
      assert [m] + (p.messages + q.messages) == ([m] + p.messages) + q.messages;
  }

  /** Decoding undoes framing, with any tail behind the frames. */
  lemma {:induction false} ParseFrames(ms: seq<Data>, tail: Data, maxLen: nat)
    requires AllDeliverable(ms, maxLen)
    ensures var p := Parse(tail, maxLen);
            Parse(Frames(ms) + tail, maxLen) == p.(messages := ms + p.messages)
  {
    hide FirstFrame, Frame;
    var later := Parse(tail, maxLen).messages;
    if ms == [] {
      assert Frames(ms) + tail == tail && ms + later == later;
    } else {
      var rest := Frames(ms[1..]) + tail;
      ParseFrames(ms[1..], tail, maxLen);
      assert Frames(ms) + tail == Frame(ms[0]) + rest;
      FrameRoundTrip(ms[0], rest, maxLen);
      ParseUnfold(Frames(ms) + tail, ms[0], rest, maxLen);
      assert [ms[0]] + (ms[1..] + later) == ms + later;
    }
  }

  /** The declarative meaning of a decode: frames in front, and a tail that starts no frame. */
  ghost predicate Decodes(s: Data, maxLen: nat, p: Parsed) {
    && s == Frames(p.messages) + p.rest
    && AllDeliverable(p.messages, maxLen)
    && (if p.bad then FirstFrame(p.rest, maxLen).Invalid? else FirstFrame(p.rest, maxLen).Incomplete?)
  }

  /** The parser computes the one and only decode of every stream. */
  lemma {:induction false} ParseIsTheDecode(s: Data, maxLen: nat, p: Parsed)
    ensures Decodes(s, maxLen, p) <==> p == Parse(s, maxLen)
  {
    ParseDecodes(s, maxLen);
    if Decodes(s, maxLen, p) {
      ParseFrames(p.messages, p.rest, maxLen);
      assert p.messages + [] == p.messages;
    }
  }

  lemma {:induction false} ParseDecodes(s: Data, maxLen: nat)
    ensures Decodes(s, maxLen, Parse(s, maxLen))
    decreases |s|
  {
    hide FirstFrame, Frame;
    match FirstFrame(s, maxLen)
    case Incomplete => assert s == [] + s;
    case Invalid => assert s == [] + s;
    case Complete(m, rest) =>
      var p := Parse(rest, maxLen);
      FirstFrameIsFrame(s, maxLen);
      ParseDecodes(rest, maxLen);
      ParseUnfold(s, m, rest, maxLen);
      FramesCons(m, p.messages, p.rest);
  }

  lemma FramesCons(m: Data, ms: seq<Data>, tail: Data)
    ensures Frames([m] + ms) + tail == Frame(m) + (Frames(ms) + tail)
  {
  }

  lemma {:induction false} FramesAppend(ms: seq<Data>, m: Data)
    ensures Frames(ms + [m]) == Frames(ms) + Frame(m)
  {
    if ms == [] {
      assert ms + [m] == [m];
      assert Frames([m]) == Frame(m) + Frames([]);
    } else {
      assert (ms + [m])[1..] == ms[1..] + [m];
      FramesAppend(ms[1..], m);
    }
  }

  function Concat(chunks: seq<Data>): Data {
    if chunks == [] then [] else Concat(chunks[..|chunks| - 1]) + chunks[|chunks| - 1]
  }

  // ---------- The codec itself, on a Buffer ----------

  class LengthFieldCodec {
    const maxFrameLen: nat

    constructor (maxFrameLen: nat)
      ensures this.maxFrameLen == maxFrameLen
    {
      this.maxFrameLen := maxFrameLen;
    }

    /** Decodes all complete frames; `forceClose` says that it ended on a bad header. */
    method OnMessage(buffer: Buffer) returns (messages: seq<Data>, forceClose: bool)
      requires buffer.Valid()
      modifies buffer`readIdx
      ensures buffer.Valid()
      ensures Parsed(messages, buffer.Contents(), forceClose) == Parse(old(buffer.Contents()), maxFrameLen)
    {
      hide FirstFrame, Unsigned32, Signed32;
      messages, forceClose := [], false;
      ghost var stream := buffer.Contents();
      while buffer.ReadableBytes() >= 4
        invariant buffer.Valid()
        invariant var p := Parse(buffer.Contents(), maxFrameLen);
                  Parse(stream, maxFrameLen) == p.(messages := messages + p.messages)
        decreases buffer.ReadableBytes()
      {
        ghost var before := buffer.Contents();
        FirstFrameByHeader(before, maxFrameLen);
        var payloadLen := buffer.PeekInt32();
        if payloadLen < 0 || payloadLen > maxFrameLen {
          forceClose := true;
          return;
        }
        if buffer.ReadableBytes() < 4 + payloadLen {
          return;
        }
        buffer.Retrieve(4);
        var message := buffer.RetrieveAsString(payloadLen);
        assert message == before[4..4 + payloadLen] && buffer.Contents() == before[4 + payloadLen..];
        ParseUnfold(before, message, buffer.Contents(), maxFrameLen);
        ghost var later := Parse(buffer.Contents(), maxFrameLen).messages;
        assert messages + ([message] + later) == (messages + [message]) + later;
        messages := messages + [message];
      }
      FirstFrameByHeader(buffer.Contents(), maxFrameLen);
    }

    /** However the stream is cut, feeding the pieces through the buffer delivers its parse,
        and a bad header stops delivery for good. */
    method FeedAll(buffer: Buffer, chunks: seq<Data>) returns (delivered: seq<Data>, closed: bool)
      requires buffer.Valid() && buffer.Contents() == []
      modifies buffer, buffer.buf
      ensures buffer.Valid()
      ensures Parsed(delivered, buffer.Contents(), closed) == Parse(Concat(chunks), maxFrameLen)
    {
      delivered, closed := [], false;
      assert Concat(chunks[..0]) == [];
      for i := 0 to |chunks|
        invariant buffer.Valid() && (buffer.buf == old(buffer.buf) || fresh(buffer.buf))
        invariant Parsed(delivered, buffer.Contents(), closed) == Parse(Concat(chunks[..i]), maxFrameLen)
      {
        ghost var rest := buffer.Contents();
        buffer.Append(chunks[i]);
        assert chunks[..i + 1][..i] == chunks[..i];
        ParseExtends(Concat(chunks[..i]), chunks[i], maxFrameLen);
        ghost var alreadyBad := closed;
        var more;
        more, closed := OnMessage(buffer);
        assert alreadyBad ==> more == [] && closed;
        delivered := delivered + more;
      }
      assert chunks[..|chunks|] == chunks;
    }

    /** The string that Send passes to the connection. */
    method EncodeFrame(message: Data) returns (framed: Data)
      ensures framed == Frame(message)
      ensures Deliverable(message, maxFrameLen) ==>
                Parse(framed, maxFrameLen) == Parsed([message], [], false)
    {
      var header := BigEndian(|message| % WORD);
      framed := header;
      if |message| > 0 {
        framed := framed + message;
      }
      if Deliverable(message, maxFrameLen) {
        ParseFrames([message], [], maxFrameLen);
        assert Frames([message]) + [] == framed by {
          assert Frames([message]) == Frame(message) + Frames([]);
        }
        assert [message] + [] == [message];
      }
    }
  }
}
