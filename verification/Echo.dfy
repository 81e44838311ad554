/** The echo server of main.cpp end to end: one connection, the codec as its message callback,
    PING answered by PONG and every other message by itself. */
module EchoServer {
  import opened Bytes
  import opened Codec
  import opened Connections

  const PING: Data := [0x50, 0x49, 0x4E, 0x47]
  const PONG: Data := [0x50, 0x4F, 0x4E, 0x47]

  /** HandleHeartbeat first, then the codec's own Send. */
  function Reply(m: Data): Data {
    if m == PING then PONG else m
  }

  /** Every other message is echoed; the four letters PING are answered by PONG. */
  lemma ReplyIsEchoOrPong(m: Data)
    ensures Reply(m) == if m == ['P' as int, 'I' as int, 'N' as int, 'G' as int]
                        then ['P' as int, 'O' as int, 'N' as int, 'G' as int] else m
  {
  }

  function Replies(ms: seq<Data>): (rs: seq<Data>)
    ensures |rs| == |ms|
  {
    seq(|ms|, i requires 0 <= i < |ms| => Reply(ms[i]))
  }

  /** `decoding` while the loop thread is inside OnMessage; the other two fields are history:
      the messages delivered so far, and how many of them were still answered. */
  datatype Echo = Echo(conn: Conn, maxLen: nat, decoding: bool, delivered: seq<Data>, answered: nat)

  function NewEcho(mark: nat, maxLen: nat): Echo {
    Echo(NewConn(mark, true), maxLen, false, [], 0)
  }

  /** Decode is one turn of OnMessage's loop; other threads may act between two turns, and inside one
      once the state has been tested. */
  datatype EchoAction = Net(action: Action) | Decode(meanwhile: seq<RemoteOp>)

  predicate NoSends(ops: seq<RemoteOp>) {
    forall i :: 0 <= i < |ops| ==> !ops[i].RemoteSend?
  }

  /** Nobody but the codec sends; the loop thread does nothing else while it decodes. */
  predicate Enabled(s: Echo, a: Action) {
    match a
    case Call(_) => false
    case Remote(op) => !op.RemoteSend?
    case OnWrite(_, meanwhile) => !s.decoding && NoSends(meanwhile)
    case _ => !s.decoding
  }

  function DecodeTurn(s: Echo, meanwhile: seq<RemoteOp>): Echo {
    match FirstFrame(s.conn.input, s.maxLen)
    case Incomplete => s.(decoding := false)
    case Invalid => s.(conn := CallInLoop(s.conn, ForceClose), decoding := false)
    case Complete(m, rest) =>
      s.(conn := SendInLoop(s.conn.(input := rest), Frame(Reply(m)), meanwhile, []),
         delivered := s.delivered + [m],
         answered := if s.conn.state == Connected then s.answered + 1 else s.answered)
  }

  /** A read that yields bytes and so calls the message callback. */
  predicate TakesInput(c: Conn, a: Action) {
    a.OnRead? && c.reading && a.read.Received? && a.read.chunk != []
  }

  function EchoStep(s: Echo, a: EchoAction): Echo {
    match a
    case Net(action) =>
      if !Enabled(s, action) then s
      else s.(conn := Act(s.conn, action),
              decoding := s.decoding || TakesInput(s.conn, action))
    case Decode(meanwhile) => if s.decoding && NoSends(meanwhile) then DecodeTurn(s, meanwhile) else s
  }

  function EchoRun(s: Echo, actions: seq<EchoAction>): Echo
    decreases |actions|
  {
    if actions == [] then s else EchoRun(EchoStep(s, actions[0]), actions[1..])
  }

  ghost predicate NoSendTask(c: Conn) {
    forall t :: t in c.queue ==> !t.SendTask?
  }

  ghost predicate EchoInv(s: Echo) {
    && Inv(s.conn)
    && NoSendTask(s.conn)
    && s.conn.received == Frames(s.delivered) + s.conn.input
    && AllDeliverable(s.delivered, s.maxLen)
    && s.answered <= |s.delivered|
    && s.conn.accepted == Frames(Replies(s.delivered[..s.answered]))
    && (s.conn.state == Connected ==> s.answered == |s.delivered|)
    && (s.conn.state == Connecting ==> !s.decoding && s.delivered == [])
    && (!s.decoding ==> !FirstFrame(s.conn.input, s.maxLen).Complete?)
  }

  lemma {:induction false} RemoteFrame(c: Conn, ops: seq<RemoteOp>)
    requires NoSendTask(c) && NoSends(ops)
    ensures NoSendTask(RemoteAll(c, ops))
    decreases |ops|
  {
    if ops != [] {
      RemoteFrame(CallRemotely(c, ops[0]), ops[1..]);
    }
  }

  /** What every step but a read and the codec's own sends leaves alone. */
  ghost predicate SameStreams(c: Conn, d: Conn) {
    && d.accepted == c.accepted && d.input == c.input && d.received == c.received
    && (d.state == Connected ==> c.state == Connected || c.state == Connecting)
  }

  lemma CloseFrame(c: Conn)
    ensures SameStreams(c, HandleClose(c)) && SameStreams(c, ForceCloseInLoop(c))
    ensures SameStreams(c, ConnectDestroyed(c)) && SameStreams(c, ShutdownInLoop(c))
    ensures HandleClose(c).queue == ForceCloseInLoop(c).queue == c.queue
    ensures ConnectDestroyed(c).queue == ShutdownInLoop(c).queue == c.queue
  {
  }

  lemma TaskFrame(c: Conn, meanwhile: seq<RemoteOp>, cb: seq<CallbackOp>)
    requires Inv(c) && c.queue != [] && NoSendTask(c)
    ensures var d := RunNext(c, meanwhile, cb); SameStreams(c, d) && NoSendTask(d)
  {
    hide HandleClose, ForceCloseInLoop, ConnectDestroyed, ShutdownInLoop;
    assert c.queue[0] in c.queue;
    TaskKeepsInv(c, meanwhile, cb);
    CloseFrame(c.(queue := c.queue[1..]));
    assert forall t :: t in c.queue[1..] ==> t in c.queue;
  }

  lemma WriteFrame(c: Conn, w: WriteOutcome, meanwhile: seq<RemoteOp>)
    requires NoSendTask(c) && NoSends(meanwhile)
    ensures var d := HandleWrite(c, w, meanwhile); SameStreams(c, d) && NoSendTask(d)
  {
    hide HandleClose, Inv;
    RemoteKeeps(c, meanwhile);
    RemoteFrame(c, meanwhile);
    CloseFrame(RemoteAll(c, meanwhile));
    if c.state == Connected {
      WriteOutFrame(RemoteAll(c, meanwhile), w);
    }
  }

  lemma WriteOutFrame(c: Conn, w: WriteOutcome)
    ensures var d := WriteOut(c, w); SameStreams(c, d) && d.queue == c.queue
  {
    hide AfterWrite, HandleClose;
    CloseFrame(c);
    if c.output != [] && w.Wrote? && w.n > 0 {
      AfterWriteFrame(c, Min(w.n, |c.output|));
    }
  }

  lemma AfterWriteFrame(c: Conn, k: nat)
    requires 0 < k <= |c.output|
    ensures var d := AfterWrite(c, k); SameStreams(c, d) && d.queue == c.queue
  {
  }

  lemma ReadFrame(c: Conn, r: ReadOutcome)
    requires c.reading
    ensures HandleRead(c, r).queue == c.queue
    ensures !TakesInput(c, OnRead(r)) ==> SameStreams(c, HandleRead(c, r))
    ensures TakesInput(c, OnRead(r)) ==>
              var d := HandleRead(c, r);
              && d.accepted == c.accepted && d.input == c.input + r.chunk
              && d.received == c.received + r.chunk && d.state == c.state
  {
    hide HandleClose;
    CloseFrame(c);
  }

  lemma RemoteStepFrame(c: Conn, op: RemoteOp)
    requires NoSendTask(c) && !op.RemoteSend?
    ensures NoSendTask(CallRemotely(c, op)) && SameStreams(c, CallRemotely(c, op))
  {
  }

  /** Apart from the codec nothing sends, and only a read touches the input. */
  lemma NetStepFrame(c: Conn, a: Action)
    requires Inv(c) && NoSendTask(c)
    requires !a.Call? && !(a.Remote? && a.op.RemoteSend?) && (a.OnWrite? ==> NoSends(a.meanwhile))
    ensures NoSendTask(Act(c, a))
    ensures !TakesInput(c, a) ==> SameStreams(c, Act(c, a))
    ensures TakesInput(c, a) ==>
              var d := Act(c, a);
              && d.accepted == c.accepted && d.input == c.input + a.read.chunk
              && d.received == c.received + a.read.chunk && d.state == c.state
  {
    hide HandleClose, HandleRead, HandleWrite, RunNext, CallRemotely, Inv;
    match a
    case OnClose => CloseFrame(c);
    case OnRead(r) => if c.reading { ReadFrame(c, r); }
    case Remote(op) => RemoteStepFrame(c, op);
    case RunTask(meanwhile, cb) => if c.queue != [] { TaskFrame(c, meanwhile, cb); }
    case OnWrite(w, meanwhile) => WriteFrame(c, w, meanwhile);
  }

  lemma NetKeepsEchoInv(s: Echo, a: Action)
    requires EchoInv(s)
    ensures EchoInv(EchoStep(s, Net(a)))
  {
    hide FirstFrame, Frames, Frame;
    if Enabled(s, a) {
      var t := EchoStep(s, Net(a));
      ActKeepsInv(s.conn, a);
      NetStepFrame(s.conn, a);
      if TakesInput(s.conn, a) {
        assert t.conn.received == Frames(s.delivered) + (s.conn.input + a.read.chunk);
      }
    }
  }

  lemma RepliesAppend(ms: seq<Data>, m: Data)
    ensures Frames(Replies(ms + [m])) == Frames(Replies(ms)) + Frame(Reply(m))
  {
    assert Replies(ms + [m]) == Replies(ms) + [Reply(m)];
    FramesAppend(Replies(ms), Reply(m));
  }

  lemma PlainSend(c: Conn, data: Data, meanwhile: seq<RemoteOp>)
    requires Inv(c) && NoSendTask(c) && NoSends(meanwhile)
    ensures var d := SendInLoop(c, data, meanwhile, []);
            && Inv(d) && d.input == c.input && d.received == c.received && NoSendTask(d)
            && (d.state == Connected ==> c.state == Connected) && (d.state == Connecting ==> c.state == Connecting)
            && d.accepted == if c.state == Connected then c.accepted + data else c.accepted
  {
    SendKeepsInv(c, data, meanwhile, []);
    RemoteKeeps(c, meanwhile);
    RemoteFrame(c, meanwhile);
    hide Inv, RemoteAll;
  }

  lemma DecodeKeepsEchoInv(s: Echo, meanwhile: seq<RemoteOp>)
    requires EchoInv(s) && s.decoding && NoSends(meanwhile)
    ensures EchoInv(DecodeTurn(s, meanwhile))
  {
    hide FirstFrame, Frames, Frame;
    match FirstFrame(s.conn.input, s.maxLen)
    case Incomplete =>
    case Invalid => CallKeepsInv(s.conn, ForceClose);
    case Complete(m, rest) =>
      var t := DecodeTurn(s, meanwhile);
      FirstFrameIsFrame(s.conn.input, s.maxLen);
      FramesAppend(s.delivered, m);
      PlainSend(s.conn.(input := rest), Frame(Reply(m)), meanwhile);
      assert t.conn.received == Frames(s.delivered) + (Frame(m) + rest);
      if s.conn.state == Connected {
        assert s.delivered[..s.answered] == s.delivered && t.delivered[..t.answered] == s.delivered + [m];
        RepliesAppend(s.delivered, m);
      } else {
        assert t.delivered[..t.answered] == s.delivered[..s.answered];
      }
  }

  lemma {:induction false} EchoRunKeepsInv(s: Echo, actions: seq<EchoAction>)
    requires EchoInv(s)
    ensures EchoInv(EchoRun(s, actions)) && EchoRun(s, actions).maxLen == s.maxLen
    decreases |actions|
  {
    if actions != [] {
      match actions[0] {
        case Net(a) => NetKeepsEchoInv(s, a);
        case Decode(meanwhile) => if s.decoding && NoSends(meanwhile) { DecodeKeepsEchoInv(s, meanwhile); }
      }
      EchoRunKeepsInv(EchoStep(s, actions[0]), actions[1..]);
    }
  }

  /** Whatever the chunking of reads, the partial writes, the closes and the calls of other threads:
      the kernel has a prefix of the accepted bytes, these are the framed replies to a prefix of the
      messages that the whole received stream parses to, and to all of them while connected. */
  lemma EndToEnd(mark: nat, maxLen: nat, actions: seq<EchoAction>)
    ensures var s := EchoRun(NewEcho(mark, maxLen), actions);
            var messages := Parse(s.conn.received, maxLen).messages;
            && s.conn.written <= s.conn.accepted
            && s.answered <= |messages|
            && s.conn.accepted == Frames(Replies(messages[..s.answered]))
            && (s.conn.state == Connected && !s.decoding ==>
                  s.answered == |messages| && s.conn.accepted == Frames(Replies(messages)))
  {
    var s := EchoRun(NewEcho(mark, maxLen), actions);
    assert Frames([]) + [] == [];
    EchoRunKeepsInv(NewEcho(mark, maxLen), actions);
    var messages := Parse(s.conn.received, maxLen).messages;
    var later := Parse(s.conn.input, maxLen).messages;
    ParseFrames(s.delivered, s.conn.input, maxLen);
    assert messages == s.delivered + later;
    assert messages[..s.answered] == s.delivered[..s.answered];
    if s.conn.state == Connected && !s.decoding {
      assert later == [];
      assert messages == s.delivered[..s.answered];
    }
  }

  /** And what a client makes of those bytes: decoding the accepted stream yields the replies. */
  lemma ClientDecodesReplies(mark: nat, maxLen: nat, actions: seq<EchoAction>)
    requires maxLen >= 4
    ensures var s := EchoRun(NewEcho(mark, maxLen), actions);
            var messages := Parse(s.conn.received, maxLen).messages;
            var answers := Parse(s.conn.accepted, maxLen);
            && s.answered == |answers.messages| <= |messages| && answers.rest == [] && !answers.bad
            && (s.conn.state == Connected && !s.decoding ==> s.answered == |messages|)
            && forall i :: 0 <= i < s.answered ==>
                 answers.messages[i] == if messages[i] == ['P' as int, 'I' as int, 'N' as int, 'G' as int]
                                        then ['P' as int, 'O' as int, 'N' as int, 'G' as int] else messages[i]
  {
    var s := EchoRun(NewEcho(mark, maxLen), actions);
    EndToEnd(mark, maxLen, actions);
    var messages := Parse(s.conn.received, maxLen).messages;
    var replies := Replies(messages[..s.answered]);
    ParseDecodes(s.conn.received, maxLen);
    ParseFrames(replies, [], maxLen);
    assert Frames(replies) + [] == Frames(replies) && replies + [] == replies;
    forall i | 0 <= i < s.answered
      ensures replies[i] == if messages[i] == ['P' as int, 'I' as int, 'N' as int, 'G' as int]
                            then ['P' as int, 'O' as int, 'N' as int, 'G' as int] else messages[i]
    {
      ReplyIsEchoOrPong(messages[i]);
    }
  }
}
