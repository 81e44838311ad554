/** What the steps of a connection come to for its peer and its callers: which bytes reach the kernel and
    come from it, what closes, whom that is told, and in which order queued calls run. */
module ConnectionLaws {
  import opened Bytes
  import opened Connections
  import opened ConnectionRuns

  // ---------- Bytes to the kernel ----------

  /** What the kernel takes in a step, according to the outcome of the write. */
  function TakenIn(s: Conn, a: Action): Data {
    if a.OnWrite? && s.writing && s.state == Connected && a.write.Wrote?
    then s.output[..Min(a.write.n, |s.output|)] else []
  }

  function Taken(s: Conn, actions: seq<Action>): Data
    decreases |actions|
  {
    if actions == [] then [] else TakenIn(s, actions[0]) + Taken(Act(s, actions[0]), actions[1..])
  }

  /** A write that the kernel takes n bytes of takes exactly the first n off the queue, and counts them. */
  lemma WriteTakesWhatItSays(s: Conn, n: nat, meanwhile: seq<RemoteOp>)
    requires Inv(s) && s.state == Connected && s.writing && s.output != [] && n > 0
    ensures var t := Act(s, OnWrite(Wrote(n), meanwhile));
            var k := Min(n, |s.output|);
            && t.written == s.written + s.output[..k] && t.output == s.output[k..]
            && t.totalWritten == s.totalWritten + k && t.accepted == s.accepted
            && (t.state != Disconnected ==> t.pendingWriteBytes == |s.output| - k)
            && (t.state == Connected ==> (t.writing <==> n < |s.output|))
            && (t.state == Disconnected <==> n >= |s.output| && Interrupts(meanwhile))
  {
    RemoteKeeps(s, meanwhile);
  }

  /** Would-block leaves the queue, a failure or a write of nothing closes. */
  lemma OtherWrites(s: Conn, w: WriteOutcome, meanwhile: seq<RemoteOp>)
    requires Inv(s) && s.state == Connected && s.writing && (w.Wrote? ==> w.n == 0 || s.output == [])
    ensures var t := Act(s, OnWrite(w, meanwhile));
            && t.written == s.written && t.output == s.output && t.accepted == s.accepted
            && (t.state == Disconnected <==> !w.WriteWouldBlock? || s.output == [])
            && (t.state == Disconnected ==> t.closeCalls == 1)
  {
    RemoteKeeps(s, meanwhile);
  }

  lemma TakenStep(s: Conn, a: Action)
    requires Inv(s)
    ensures Act(s, a).written == s.written + TakenIn(s, a)
  {
    if SendsNow(s, a).Some? {
      SendLeavesWritten(s, a);
    } else if a.OnWrite? && s.state == Connected {
      if s.writing {
        if a.write.Wrote? && a.write.n > 0 && s.output != [] {
          WriteTakesWhatItSays(s, a.write.n, a.meanwhile);
        } else {
          OtherWrites(s, a.write, a.meanwhile);
        }
        hide Act;
        assert s.output[..0] == [];
      }
    } else {
      QuietStep(s, a);
    }
  }

  lemma SendLeavesWritten(s: Conn, a: Action)
    requires Inv(s) && SendsNow(s, a).Some?
    ensures Act(s, a).written == s.written
  {
    var s1 := if a.RunTask? then s.(queue := s.queue[1..]) else s;
    hide Connections.Inv, SendInLoop, SentNow;
    assert Connections.Inv(s1) by {
      InvWithoutHead(s);
    }
    SendKeepsInv(s1, SendsNow(s, a).value, InsideSend(a), HighWaterOps(a));
  }

  lemma InvWithoutHead(s: Conn)
    requires Inv(s) && s.state != Connecting
    ensures s.queue != [] ==> Inv(s.(queue := s.queue[1..]))
    ensures Inv(s)
  {
  }

  lemma Associate(a: Data, b: Data, c: Data)
    ensures a + (b + c) == (a + b) + c
  {
  }

  /** In every run the written bytes are those that the kernel took, in order. */
  lemma {:induction false} WrittenIsTaken(s: Conn, actions: seq<Action>)
    requires Inv(s)
    ensures Run(s, actions).written == s.written + Taken(s, actions)
    decreases |actions|
  {
    hide Act, Connections.Inv, TakenIn;
    if actions != [] {
      var t := Act(s, actions[0]);
      TakenStep(s, actions[0]);
      ActKeepsInv(s, actions[0]);
      WrittenIsTaken(t, actions[1..]);
      Associate(s.written, TakenIn(s, actions[0]), Taken(t, actions[1..]));
    }
  }

  // ---------- Bytes from the kernel ----------

  function GivenIn(s: Conn, a: Action): Data {
    if a.OnRead? && s.reading && a.read.Received? then a.read.chunk else []
  }

  function Given(s: Conn, actions: seq<Action>): Data
    decreases |actions|
  {
    if actions == [] then [] else GivenIn(s, actions[0]) + Given(Act(s, actions[0]), actions[1..])
  }

  /** A read appends what came in and counts it. Exactly end of stream and a failed read close. */
  lemma ReadDoesWhatItSays(s: Conn, r: ReadOutcome)
    requires Inv(s) && s.reading && s.state != Disconnected
    ensures var t := Act(s, OnRead(r));
            && (t.state == Disconnected <==> r == Received([]) || r == ReadFailed)
            && (t.state == Disconnected ==> t.closeCalls == 1 && !t.open)
            && (t.state != Disconnected ==> t.state == s.state)
            && (r.Received? ==> t.input == s.input + r.chunk && t.totalRead == s.totalRead + |r.chunk|)
            && (!r.Received? ==> t.input == s.input && t.totalRead == s.totalRead)
            && t.output == s.output && t.queue == s.queue
  {
  }

  lemma GivenStep(s: Conn, a: Action)
    requires Inv(s)
    ensures Act(s, a).received == s.received + GivenIn(s, a) && Act(s, a).input == s.input + GivenIn(s, a)
  {
    hide SendInLoop, RunCallback, RemoteAll, HandleClose;
    if SendsNow(s, a).Some? {
      SendLeavesInput(s, a);
    } else {
      InputStep(s, a);
    }
  }

  lemma SendLeavesInput(s: Conn, a: Action)
    requires Inv(s) && SendsNow(s, a).Some?
    ensures Act(s, a).received == s.received && Act(s, a).input == s.input
  {
    var s1 := if a.RunTask? then s.(queue := s.queue[1..]) else s;
    InvWithoutHead(s);
    RemoteKeeps(s1, InsideSend(a));
    var data := SendsNow(s, a).value;
    if s1.watched && Crosses(s1, data) {
      var s2 := AtCallback(s1, data, InsideSend(a));
      AtCallbackInv(s1, data, InsideSend(a));
      CallbackKeeps(s2, s2, HighWaterOps(a));
    }
    hide RunCallback, RemoteAll;
  }

  ghost predicate SameInput(s: Conn, t: Conn) {
    t.received == s.received && t.input == s.input
  }

  lemma CloseKeepsInput(s: Conn)
    ensures SameInput(s, HandleClose(s)) && SameInput(s, ForceCloseInLoop(s))
    ensures SameInput(s, ConnectDestroyed(s)) && SameInput(s, ShutdownInLoop(s))
  {
  }

  lemma TaskKeepsInput(s: Conn, meanwhile: seq<RemoteOp>, cb: seq<CallbackOp>)
    requires s.queue != [] && !(s.queue[0].SendTask? && s.state == Connected)
    ensures SameInput(s, RunNext(s, meanwhile, cb))
  {
    hide HandleClose, ForceCloseInLoop, ConnectDestroyed, ShutdownInLoop;
    CloseKeepsInput(s.(queue := s.queue[1..]));
  }

  lemma CallKeepsInput(s: Conn, op: UserOp)
    requires !(op.Send? && s.state == Connected)
    ensures SameInput(s, CallInLoop(s, op))
  {
    hide HandleClose, ForceCloseInLoop, ShutdownInLoop;
    CloseKeepsInput(s.(state := Disconnecting));
  }

  lemma WriteKeepsInput(s: Conn, w: WriteOutcome, meanwhile: seq<RemoteOp>)
    ensures SameInput(s, HandleWrite(s, w, meanwhile))
  {
    hide HandleClose, Connections.Inv;
    RemoteKeeps(s, meanwhile);
    var s1 := RemoteAll(s, meanwhile);
    WriteOutKeepsInput(s1, w);
  }

  lemma WriteOutKeepsInput(s: Conn, w: WriteOutcome)
    ensures SameInput(s, WriteOut(s, w))
  {
  }

  lemma InputStep(s: Conn, a: Action)
    requires Inv(s) && SendsNow(s, a).None?
    ensures Act(s, a).received == s.received + GivenIn(s, a) && Act(s, a).input == s.input + GivenIn(s, a)
  {
    hide HandleClose, HandleWrite, CallInLoop, RunNext, CallRemotely, Connections.Inv;
    CloseKeepsInput(s);
    match a
    case OnWrite(w, meanwhile) => WriteKeepsInput(s, w, meanwhile);
    case Call(op) => CallKeepsInput(s, op);
    case Remote(op) => RemoteStep(s, op);
    case RunTask(meanwhile, cb) => if s.queue != [] { TaskKeepsInput(s, meanwhile, cb); }
    case _ =>
  }

  /** In every run the received bytes are those that the kernel gave while the connection was reading. */
  lemma {:induction false} ReceivedIsGiven(s: Conn, actions: seq<Action>)
    requires Inv(s)
    ensures Run(s, actions).received == s.received + Given(s, actions)
    decreases |actions|
  {
    hide Act, Connections.Inv, GivenIn;
    if actions != [] {
      var t := Act(s, actions[0]);
      GivenStep(s, actions[0]);
      ActKeepsInv(s, actions[0]);
      ReceivedIsGiven(t, actions[1..]);
      Associate(s.received, GivenIn(s, actions[0]), Given(t, actions[1..]));
    }
  }

  // ---------- Closing ----------

  /** Shutdown on the loop thread closes at once if nothing is queued, and asks for writing otherwise. */
  lemma ShutdownOnLoop(s: Conn)
    requires Inv(s) && s.state == Connected
    ensures var t := Act(s, Call(Shutdown));
            && t.output == s.output && t.queue == s.queue
            && (if s.output == [] then t.state == Disconnected && t.closeCalls == 1 && !t.open && !t.added
                else t.state == Disconnecting && t.closeCalls == 0 && t.open && t.writing && t.added)
  {
  }

  /** ForceClose on the loop thread closes whatever is queued. */
  lemma ForceCloseOnLoop(s: Conn)
    requires Inv(s) && (s.state == Connected || s.state == Disconnecting)
    ensures var t := Act(s, Call(ForceClose));
            t.state == Disconnected && t.closeCalls == 1 && !t.open && !t.added && t.output == s.output
  {
  }

  /** What each functor does when the loop gets to it. */
  lemma FunctorsDo(s: Conn, meanwhile: seq<RemoteOp>, cb: seq<CallbackOp>)
    requires Inv(s) && s.queue != [] && !s.queue[0].SendTask?
    ensures var t, isOpen := Act(s, RunTask(meanwhile, cb)), s.state == Connected || s.state == Disconnecting;
            && t.queue == s.queue[1..] && t.output == s.output && t.input == s.input
            && (s.queue[0] == Establish ==> t.state == Connected && t.reading && t.added && t.open)
            && (s.queue[0] == ShutdownTask && isOpen ==>
                  if s.output == [] then t.state == Disconnected && t.closeCalls == 1 && !t.open
                  else t.state == s.state && t.writing && t.added)
            && (s.queue[0] == ForceCloseTask && isOpen ==> t.state == Disconnected && t.closeCalls == 1 && !t.open)
            && (s.queue[0] == DestroyTask && isOpen ==> t.state == Disconnected && t.closeCalls == 0 && !t.open)
  {
    hide SendInLoop;
  }

  /** Whoever closes, the close callback is made with it, unless the server asked for the close itself. */
  lemma CloseIsTold(s: Conn, a: Action)
    requires Inv(s) && s.state != Disconnected && Act(s, a).state == Disconnected
    ensures Act(s, a).closeCalls == if a.RunTask? && s.queue != [] && s.queue[0] == DestroyTask then 0 else 1
  {
    if SendsNow(s, a).Some? {
      SendTells(s, a);
    } else {
      QuietClose(s, a);
    }
  }

  lemma SendTells(s: Conn, a: Action)
    requires Inv(s) && SendsNow(s, a).Some?
    ensures var t := Act(s, a); t.state == Disconnected ==> t.closeCalls == 1
  {
    var s1 := if a.RunTask? then s.(queue := s.queue[1..]) else s;
    InvWithoutHead(s);
    RemoteKeeps(s1, InsideSend(a));
    var data := SendsNow(s, a).value;
    if s1.watched && Crosses(s1, data) {
      var s2 := AtCallback(s1, data, InsideSend(a));
      AtCallbackInv(s1, data, InsideSend(a));
      CallbackKeeps(s2, s2, HighWaterOps(a));
    }
    hide RunCallback, RemoteAll;
  }

  lemma QuietClose(s: Conn, a: Action)
    requires Inv(s) && s.state != Disconnected && SendsNow(s, a).None? && Act(s, a).state == Disconnected
    ensures Act(s, a).closeCalls == if a.RunTask? && s.queue != [] && s.queue[0] == DestroyTask then 0 else 1
  {
    hide RunCallback, RemoteAll, WriteOut, RunNext;
    if a.OnWrite? {
      WriteTells(s, a.write, a.meanwhile);
    } else if a.RunTask? && s.queue != [] {
      TaskTells(s, a.meanwhile, a.onHighWater);
    }
  }

  lemma TaskTells(s: Conn, meanwhile: seq<RemoteOp>, cb: seq<CallbackOp>)
    requires Inv(s) && s.queue != [] && s.state != Disconnected && !(s.queue[0].SendTask? && s.state == Connected)
    ensures var t := RunNext(s, meanwhile, cb);
            t.state == Disconnected ==> t.closeCalls == if s.queue[0] == DestroyTask then 0 else 1
  {
    hide RunCallback, RemoteAll;
  }

  lemma WriteTells(s: Conn, w: WriteOutcome, meanwhile: seq<RemoteOp>)
    requires Inv(s) && s.state != Disconnected
    ensures var t := HandleWrite(s, w, meanwhile); t.state == Disconnected ==> t.closeCalls == 1
  {
    RemoteKeeps(s, meanwhile);
  }

  // ---------- Calls of other threads, and the order of functors ----------

  /** A call of another thread queues its functor behind the others, if the state lets it. */
  lemma RemoteCallsQueue(s: Conn, op: RemoteOp)
    ensures var t := Act(s, Remote(op));
            && (op.RemoteSend? ==> t == if s.state == Connected then s.(queue := s.queue + [SendTask(op.data)]) else s)
            && (op.RemoteShutdown? ==>
                  t == if s.state == Connected
                       then s.(state := Disconnecting, queue := s.queue + [ShutdownTask]) else s)
            && (op.RemoteForceClose? ==>
                  t == if s.state == Connected || s.state == Disconnecting
                       then s.(state := Disconnecting, queue := s.queue + [ForceCloseTask]) else s)
            && (op.RemoteDestroy? ==> t == s.(queue := s.queue + [DestroyTask]))
  {
  }

  lemma {:induction false} RemoteAllAppends(s: Conn, ops: seq<RemoteOp>)
    ensures s.queue <= RemoteAll(s, ops).queue
    decreases |ops|
  {
    if ops != [] {
      RemoteAllAppends(CallRemotely(s, ops[0]), ops[1..]);
    }
  }

  ghost predicate OnlyAppends(s: Conn, t: Conn) {
    s.queue <= t.queue && s.accepted <= t.accepted
  }

  lemma CallbackStepAppends(s: Conn, op: CallbackOp)
    ensures OnlyAppends(s, CallbackStep(s, op))
  {
    hide RemoteAll, CallRemotely, ShutdownInLoop, ForceCloseInLoop, OnlyAppends;
    match op
    case CbSend(data, meanwhile) => NestedAppends(s, data, meanwhile);
    case CbShutdown => LocalAppends(s);
    case CbForceClose => LocalAppends(s);
    case CbMeanwhile(call) => CallAppendsOnly(s, call);
  }

  lemma NestedAppends(s: Conn, data: Data, meanwhile: seq<RemoteOp>)
    ensures OnlyAppends(s, CallbackStep(s, CbSend(data, meanwhile)))
  {
    hide Inv, RemoteAll;
    RemoteAllAppends(s, meanwhile);
    RemoteKeeps(s, meanwhile);
  }

  lemma LocalAppends(s: Conn)
    ensures OnlyAppends(s, CallbackStep(s, CbShutdown)) && OnlyAppends(s, CallbackStep(s, CbForceClose))
  {
  }

  lemma CallAppendsOnly(s: Conn, call: RemoteOp)
    ensures OnlyAppends(s, CallbackStep(s, CbMeanwhile(call)))
  {
  }

  lemma {:induction false} CallbackAppends(s: Conn, ops: seq<CallbackOp>)
    ensures OnlyAppends(s, RunCallback(s, ops))
    decreases |ops|
  {
    hide CallbackStep;
    if ops != [] {
      CallbackStepAppends(s, ops[0]);
      CallbackAppends(CallbackStep(s, ops[0]), ops[1..]);
    }
  }

  /** A send made inside the high-water callback is accepted like any other. */
  lemma NestedSendAppends(s: Conn, data: Data, meanwhile: seq<RemoteOp>)
    requires s.state == Connected
    ensures var t := CallbackStep(s, CbSend(data, meanwhile));
            t.accepted == s.accepted + data && t.output == s.output + data && t.writing
  {
    hide Inv;
    RemoteKeeps(s, meanwhile);
  }

  lemma SendAppends(s: Conn, data: Data, meanwhile: seq<RemoteOp>, cb: seq<CallbackOp>)
    requires s.state == Connected
    ensures var t := SendInLoop(s, data, meanwhile, cb);
            && s.queue <= t.queue && s.accepted + data <= t.accepted
            && (cb == [] || !s.watched || !Crosses(s, data) ==> t.accepted == s.accepted + data)
  {
    hide Inv;
    RemoteAllAppends(s, meanwhile);
    RemoteKeeps(s, meanwhile);
    CallbackAppends(AtCallback(s, data, meanwhile), cb);
  }

  /** Functors run in the order in which they were queued: the head runs, and new ones go behind. A
      queued send that is not refused is accepted behind what was accepted before. */
  lemma FunctorsInOrder(s: Conn, a: Action)
    ensures (if a.RunTask? && s.queue != [] then s.queue[1..] else s.queue) <= Act(s, a).queue
    ensures SendsNow(s, a).Some? ==> s.accepted + SendsNow(s, a).value <= Act(s, a).accepted
  {
    if SendsNow(s, a).Some? {
      var s1 := if a.RunTask? then s.(queue := s.queue[1..]) else s;
      SendAppends(s1, SendsNow(s, a).value, InsideSend(a), HighWaterOps(a));
      hide SendInLoop, RemoteAll, RunCallback;
    } else if a.OnWrite? && s.state == Connected {
      RemoteAllAppends(s, a.meanwhile);
      WriteQueue(RemoteAll(s, a.meanwhile), a.write);
      hide RemoteAll, WriteOut;
    } else {
      QueueStep(s, a);
    }
  }

  lemma WriteQueue(s: Conn, w: WriteOutcome)
    ensures WriteOut(s, w).queue == s.queue
  {
  }

  lemma TaskPops(s: Conn, meanwhile: seq<RemoteOp>, cb: seq<CallbackOp>)
    requires s.queue != [] && !(s.queue[0].SendTask? && s.state == Connected)
    ensures RunNext(s, meanwhile, cb).queue == s.queue[1..]
  {
    hide RunCallback, RemoteAll, HandleClose, ForceCloseInLoop, ConnectDestroyed, ShutdownInLoop;
    CloseKeepsQueue(s.(queue := s.queue[1..]));
  }

  lemma CallLeavesQueue(s: Conn, op: UserOp)
    requires !(op.Send? && s.state == Connected)
    ensures CallInLoop(s, op).queue == s.queue
  {
    hide RunCallback, RemoteAll, HandleClose, ForceCloseInLoop, ShutdownInLoop;
    CloseKeepsQueue(s.(state := Disconnecting));
  }

  lemma CallAppends(s: Conn, op: RemoteOp)
    ensures s.queue <= CallRemotely(s, op).queue
  {
  }

  lemma QueueStep(s: Conn, a: Action)
    requires SendsNow(s, a).None? && !(a.OnWrite? && s.state == Connected)
    ensures (if a.RunTask? && s.queue != [] then s.queue[1..] else s.queue) <= Act(s, a).queue
  {
    hide RunNext, CallInLoop, CallRemotely, HandleRead, HandleClose;
    match a
    case OnClose => CloseKeepsQueue(s);
    case OnRead(r) => GentleRead(s, r);
    case OnWrite(_, _) =>
    case Call(op) => CallLeavesQueue(s, op);
    case Remote(op) => CallAppends(s, op);
    case RunTask(meanwhile, cb) => if s.queue != [] { TaskPops(s, meanwhile, cb); }
  }

  // ---------- One event ----------

  /** A hang-up closes once and reads nothing. */
  lemma HangupCloses(s: Conn, readable: bool, writable: bool, r: ReadOutcome, calls: seq<UserOp>, w: WriteOutcome,
                     meanwhile: seq<RemoteOp>)
    requires Inv(s) && s.added && s.state != Disconnected
    ensures var t := Run(s, Dispatch(false, true, readable, writable, r, calls, w, meanwhile));
            && t.state == Disconnected && t.closeCalls == 1
            && t.received == s.received && t.written == s.written && t.accepted == s.accepted
  {
    assert [OnClose][1..] == [];
    assert Run(s, [OnClose]) == Run(Act(s, OnClose), []);
  }

  /** Read comes before write: what the message callback sends in an event is written in the same event,
      if the kernel has room. */
  lemma ReadBeforeWrite(s: Conn, chunk: Data, data: Data, n: nat)
    requires Inv(s) && s.state == Connected && s.writing && !s.watched && chunk != []
    requires n >= |s.output| + |data| > 0
    ensures var t := Run(s, Dispatch(false, false, true, true, Received(chunk), [Send(data, [], [])], Wrote(n), []));
            && t.received == s.received + chunk && t.accepted == s.accepted + data
            && t.written == t.accepted && t.output == []
  {
    var a, b, c := OnRead(Received(chunk)), Call(Send(data, [], [])), OnWrite(Wrote(n), []);
    var s1 := Act(s, a);
    ReadDoesWhatItSays(s, Received(chunk));
    GivenStep(s, a);
    ActKeepsInv(s, a);
    assert s1 == s.(input := s1.input, received := s1.received, totalRead := s1.totalRead);
    var s2 := Act(s1, b);
    assert s2.output == s.output + data && s2.accepted == s.accepted + data && s2.state == Connected && s2.writing;
    ActKeepsInv(s1, b);
    GivenStep(s1, b);
    WriteTakesWhatItSays(s2, n, []);
    GivenStep(s2, c);
    TakenStep(s1, b);
    ActKeepsInv(s2, c);
    hide Act;
    assert CallActions([Send(data, [], [])]) == [b];
    assert Dispatch(false, false, true, true, Received(chunk), [Send(data, [], [])], Wrote(n), []) == [a, b, c];
    RunThree(s, a, b, c);
  }

  lemma RunThree(s: Conn, a: Action, b: Action, c: Action)
    ensures Run(s, [a, b, c]) == Act(Act(Act(s, a), b), c)
  {
    hide Act;
    assert [a, b, c][1..] == [b, c] && [b, c][1..] == [c] && [c][1..] == [];
    assert Run(Act(Act(s, a), b), [c]) == Run(Act(Act(Act(s, a), b), c), []);
  }

  /** Without read interest or a read event, a writable one still writes. */
  lemma WriteAlone(s: Conn, r: ReadOutcome, calls: seq<UserOp>, n: nat)
    requires Inv(s) && s.state == Connected && s.writing && s.output != [] && n > 0
    ensures var t := Run(s, Dispatch(false, false, false, true, r, calls, Wrote(n), []));
            t.written == s.written + s.output[..Min(n, |s.output|)] && t.received == s.received
  {
    var c := OnWrite(Wrote(n), []);
    assert [c][1..] == [];
    assert Run(s, [c]) == Run(Act(s, c), []);
    WriteTakesWhatItSays(s, n, []);
    GivenStep(s, c);
    hide Act;
    assert Dispatch(false, false, false, true, r, calls, Wrote(n), []) == [c];
  }
}
