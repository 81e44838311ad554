/** Properties of whole runs of one connection: every interleaving of poll events, functors,
    callbacks and calls from other threads. */
module ConnectionRuns {
  import opened Bytes
  import opened Connections

  lemma {:induction false} RunProgress(s: Conn, actions: seq<Action>)
    requires Inv(s)
    ensures Progress(s, Run(s, actions))
    decreases |actions|
  {
    if actions != [] {
      ActKeepsInv(s, actions[0]);
      RunProgress(Act(s, actions[0]), actions[1..]);
    }
  }

  // ---------- Lifecycle ----------

  /** From any point of any run the state never moves back, Disconnected is final, and the close
      callback has run at most once, whichever close paths overlap. */
  lemma Lifecycle(mark: nat, watched: bool, before: seq<Action>, after: seq<Action>)
    ensures var s := Run(NewConn(mark, watched), before);
            var t := Run(s, after);
            && Rank(s.state) <= Rank(t.state)
            && (s.state == Disconnected ==> t.state == Disconnected && t.closeCalls == s.closeCalls)
            && t.closeCalls <= 1
            && (t.state != Disconnected ==> t.closeCalls == 0)
  {
    var s := Run(NewConn(mark, watched), before);
    RunProgress(NewConn(mark, watched), before);
    RunProgress(s, after);
    if s.state == Disconnected {
      ClosedStaysClosed(s, after);
    }
  }

  lemma {:induction false} ClosedStaysClosed(s: Conn, actions: seq<Action>)
    requires Inv(s) && s.state == Disconnected
    ensures var t := Run(s, actions); t.state == Disconnected && t.closeCalls == s.closeCalls
    decreases |actions|
  {
    if actions != [] {
      var t := Act(s, actions[0]);
      ActKeepsInv(s, actions[0]);
      assert t.closeCalls == s.closeCalls;
      ClosedStaysClosed(t, actions[1..]);
    }
  }

  /** ConnectEstablished only ever runs on a connection that is Connecting, as it asserts. */
  lemma EstablishedOnce(mark: nat, watched: bool, actions: seq<Action>)
    ensures var s := Run(NewConn(mark, watched), actions);
            && (s.queue != [] && s.queue[0] == Establish ==> s.state == Connecting)
            && (s.queue != [] ==> Establish !in s.queue[1..])
  {
    RunProgress(NewConn(mark, watched), actions);
  }

  /** A POLLERR event runs the error handler and the close handler, yet closes once. */
  lemma ErrorEventClosesOnce(s: Conn, hangup: bool, readable: bool, writable: bool,
                             r: ReadOutcome, calls: seq<UserOp>, w: WriteOutcome,
                             meanwhile: seq<RemoteOp>)
    requires Inv(s) && s.added && s.state != Disconnected
    ensures var t := Run(s, Dispatch(true, hangup, readable, writable, r, calls, w, meanwhile));
            t.state == Disconnected && t.closeCalls == s.closeCalls + 1 == 1
  {
    var t := Act(s, OnClose);
    assert [OnClose, OnClose][1..] == [OnClose] && [OnClose][1..] == [];
    assert Run(t, [OnClose]) == Run(Act(t, OnClose), []);
  }

  // ---------- What a step does to the output ----------

  /** The data of the SendInLoop that a step performs, if it does and is not refused. */
  function SendsNow(s: Conn, a: Action): Option<Data> {
    if s.state != Connected then None
    else if a.Call? && a.call.Send? then Some(a.call.data)
    else if a.RunTask? && s.queue != [] && s.queue[0].SendTask? then Some(s.queue[0].data)
    else None
  }

  function HighWaterOps(a: Action): seq<CallbackOp> {
    if a.Call? && a.call.Send? then a.call.onHighWater else if a.RunTask? then a.onHighWater else []
  }

  /** The calls of other threads that land inside the send. */
  function InsideSend(a: Action): seq<RemoteOp> {
    if a.Call? && a.call.Send? then a.call.meanwhile else if a.RunTask? then a.meanwhile else []
  }

  ghost predicate SameOutput(s: Conn, t: Conn) {
    && t.output == s.output && t.accepted == s.accepted && t.written == s.written
    && t.highWaterMark == s.highWaterMark && t.watched == s.watched && t.highWaterCalls == s.highWaterCalls
  }

  lemma CloseKeepsOutput(s: Conn)
    ensures SameOutput(s, HandleClose(s)) && SameOutput(s, ForceCloseInLoop(s))
    ensures SameOutput(s, ConnectDestroyed(s)) && SameOutput(s, ShutdownInLoop(s))
  {
  }

  lemma TaskKeepsOutput(s: Conn, meanwhile: seq<RemoteOp>, cb: seq<CallbackOp>)
    requires s.queue != [] && !(s.queue[0].SendTask? && s.state == Connected)
    ensures SameOutput(s, RunNext(s, meanwhile, cb))
  {
    hide HandleClose, ForceCloseInLoop, ConnectDestroyed, ShutdownInLoop;
    CloseKeepsOutput(s.(queue := s.queue[1..]));
  }

  lemma CallKeepsOutput(s: Conn, op: UserOp)
    requires !(op.Send? && s.state == Connected)
    ensures SameOutput(s, CallInLoop(s, op))
  {
    hide HandleClose, ForceCloseInLoop, ShutdownInLoop;
    CloseKeepsOutput(s.(state := Disconnecting));
  }

  /** Apart from sends and writes no step touches the output. */
  lemma QuietStep(s: Conn, a: Action)
    requires SendsNow(s, a).None? && (a.OnWrite? ==> s.state != Connected)
    ensures SameOutput(s, Act(s, a))
  {
    hide HandleClose, CallInLoop, RunNext, CallRemotely;
    CloseKeepsOutput(s);
    match a
    case Call(op) => CallKeepsOutput(s, op);
    case Remote(op) => hide Connections.Inv; RemoteStep(s, op);
    case RunTask(meanwhile, cb) => if s.queue != [] { TaskKeepsOutput(s, meanwhile, cb); }
    case _ =>
  }

  // ---------- Output ----------

  /** Every accepted byte is either with the kernel or still queued, in order, and the counters agree. */
  lemma OutputConservation(mark: nat, watched: bool, actions: seq<Action>)
    ensures var s := Run(NewConn(mark, watched), actions);
            && s.accepted == s.written + s.output
            && s.totalWritten == |s.written|
            && s.totalRead == |s.received|
            && s.pendingWriteBytes == (if s.state == Disconnected then 0 else |s.output|)
  {
    RunProgress(NewConn(mark, watched), actions);
  }

  /** Once the state has left Connected, nothing more is accepted, written or dropped. */
  lemma {:induction false} OutputFrozen(s: Conn, actions: seq<Action>)
    requires Inv(s) && Rank(s.state) >= Rank(Disconnecting)
    ensures var t := Run(s, actions);
            t.written == s.written && t.accepted == s.accepted && t.output == s.output
    decreases |actions|
  {
    if actions != [] {
      ActKeepsInv(s, actions[0]);
      QuietStep(s, actions[0]);
      OutputFrozen(Act(s, actions[0]), actions[1..]);
    }
  }

  /** So from there what has been accepted can still be delivered exactly if nothing is queued. */
  lemma DeliveredIffDrained(s: Conn)
    requires Inv(s) && Rank(s.state) >= Rank(Disconnecting)
    ensures (exists rest :: Run(s, rest).written == s.accepted) <==> s.output == []
  {
    forall rest
      ensures Run(s, rest).written == s.written
    {
      OutputFrozen(s, rest);
    }
    assert s.accepted == s.written + s.output;
    if s.output == [] {
      var none: seq<Action> := [];
      assert Run(s, none).written == s.accepted;
    } else {
      assert |s.accepted| > |s.written|;
    }
  }

  /** Shutdown, from either side, lets the queued bytes reach the kernel in some continuation
      exactly when there are none: it never drains. */
  lemma ShutdownFlushesIffNothingQueued(s: Conn, remote: bool)
    requires Inv(s) && s.state == Connected
    ensures var t := Act(s, if remote then Remote(RemoteShutdown) else Call(Shutdown));
            (exists rest :: Run(t, rest).written == s.accepted) <==> s.output == []
  {
    var a := if remote then Remote(RemoteShutdown) else Call(Shutdown);
    ActKeepsInv(s, a);
    DeliveredIffDrained(Act(s, a));
  }

  /** The one exception is a Shutdown by another thread that lands inside HandleWrite, past its guard.
      Then the bytes get out exactly if that very write takes them all, and it closes right away. */
  lemma ShutdownInsideWrite(s: Conn, w: WriteOutcome, meanwhile: seq<RemoteOp>)
    requires Inv(s) && s.state == Connected && s.writing && Interrupts(meanwhile)
    ensures var t := Act(s, OnWrite(w, meanwhile));
            var drains := w.Wrote? && w.n >= |s.output|;
            && ((exists rest :: Run(t, rest).written == s.accepted) <==> s.output == [] || drains)
            && (drains ==> t.state == Disconnected && t.closeCalls == 1)
  {
    RemoteKeeps(s, meanwhile);
    var t := Act(s, OnWrite(w, meanwhile));
    ActKeepsInv(s, OnWrite(w, meanwhile));
    assert t.accepted == s.accepted;
    DeliveredIffDrained(t);
  }

  lemma {:induction false} CallbackAccepts(s: Conn, ops: seq<CallbackOp>)
    requires s.state == Disconnecting || s.state == Disconnected
    ensures var t := RunCallback(s, ops);
            && t.accepted == s.accepted && t.output == s.output
            && (t.state == Disconnecting || t.state == Disconnected)
    decreases |ops|
  {
    if ops != [] {
      CallbackStepAccepts(s, ops[0]);
      CallbackAccepts(CallbackStep(s, ops[0]), ops[1..]);
    }
  }

  lemma CallbackStepAccepts(s: Conn, op: CallbackOp)
    requires s.state == Disconnecting || s.state == Disconnected
    ensures var t := CallbackStep(s, op);
            && t.accepted == s.accepted && t.output == s.output
            && (t.state == Disconnecting || t.state == Disconnected)
  {
    hide RemoteAll, CallRemotely, Connections.Inv;
    if op.CbMeanwhile? {
      RemoteStep(s, op.op);
    }
  }

  /** And one that lands inside SendInLoop leaves the message accepted and never delivered, whatever
      the high-water callback does. */
  lemma ShutdownInsideSendLosesIt(s: Conn, data: Data, meanwhile: seq<RemoteOp>, cb: seq<CallbackOp>)
    requires Inv(s) && s.state == Connected && Interrupts(meanwhile) && data != []
    ensures var t := Act(s, Call(Send(data, meanwhile, cb)));
            t.accepted == s.accepted + data && !exists rest :: Run(t, rest).written == t.accepted
  {
    var t := SendInLoop(s, data, meanwhile, cb);
    RemoteKeeps(s, meanwhile);
    SendKeepsInv(s, data, meanwhile, cb);
    CallbackAccepts(AtCallback(s, data, meanwhile), cb);
    hide Connections.Inv, RemoteAll, RunCallback;
    assert t.accepted == s.accepted + data && t.output == s.output + data;
    DeliveredIffDrained(t);
  }

  // ---------- Write interest ----------

  lemma SendStep(s: Conn, a: Action)
    requires Inv(s) && SendsNow(s, a).Some?
    ensures var t, data := Act(s, a), SendsNow(s, a).value;
            && t.highWaterMark == s.highWaterMark && t.watched == s.watched
            && t.highWaterCalls == s.highWaterCalls + HighWaterCall(s, t)
            && SentNow(s, t, data, InsideSend(a), HighWaterOps(a))
  {
    var s1 := if a.RunTask? then s.(queue := s.queue[1..]) else s;
    SendKeepsInv(s1, SendsNow(s, a).value, InsideSend(a), HighWaterOps(a));
  }

  predicate InterestMatches(s: Conn) {
    s.state == Connected ==> (s.writing <==> s.output != [])
  }

  /** An empty message sent while nothing is queued, with no Shutdown or ForceClose inside the send. */
  predicate IdleEmptySend(s: Conn, a: Action) {
    SendsNow(s, a) == Some([]) && s.output == [] && !Interrupts(InsideSend(a))
  }

  predicate AlwaysMatches(s: Conn, actions: seq<Action>)
    decreases |actions|
  {
    InterestMatches(s) && (actions != [] ==> AlwaysMatches(Act(s, actions[0]), actions[1..]))
  }

  predicate NoIdleEmptySend(s: Conn, actions: seq<Action>)
    decreases |actions|
  {
    actions != [] ==> !IdleEmptySend(s, actions[0]) && NoIdleEmptySend(Act(s, actions[0]), actions[1..])
  }

  lemma MatchStep(s: Conn, a: Action)
    requires Inv(s) && InterestMatches(s)
    ensures InterestMatches(Act(s, a)) <==> !IdleEmptySend(s, a)
  {
    ActKeepsInv(s, a);
    if SendsNow(s, a).Some? {
      SendStep(s, a);
    } else if a.OnWrite? {
      RemoteKeeps(s, a.meanwhile);
    }
  }

  /** While Connected, write interest is on exactly while bytes are queued, throughout a run
      exactly when nobody sends an empty message on an idle connection. */
  lemma {:induction false} WriteInterestIffQueued(s: Conn, actions: seq<Action>)
    requires Inv(s) && InterestMatches(s)
    ensures AlwaysMatches(s, actions) <==> NoIdleEmptySend(s, actions)
    decreases |actions|
  {
    if actions != [] {
      var t := Act(s, actions[0]);
      MatchStep(s, actions[0]);
      ActKeepsInv(s, actions[0]);
      if InterestMatches(t) {
        WriteInterestIffQueued(t, actions[1..]);
      }
    }
  }

  /** So without such sends the zero-byte write that closes the connection is never attempted. */
  lemma NoZeroByteWrite(mark: nat, watched: bool, actions: seq<Action>)
    requires NoIdleEmptySend(NewConn(mark, watched), actions)
    ensures var s := Run(NewConn(mark, watched), actions);
            s.state == Connected && s.writing ==> s.output != []
  {
    WriteInterestIffQueued(NewConn(mark, watched), actions);
    AlwaysMatchesAtEnd(NewConn(mark, watched), actions);
  }

  lemma {:induction false} AlwaysMatchesAtEnd(s: Conn, actions: seq<Action>)
    requires AlwaysMatches(s, actions)
    ensures InterestMatches(Run(s, actions))
    decreases |actions|
  {
    if actions != [] {
      AlwaysMatchesAtEnd(Act(s, actions[0]), actions[1..]);
    }
  }

  /** One empty message on an idle connection and the next writable event closes it. */
  lemma EmptySendClosesIdleConnection(s: Conn, cb: seq<CallbackOp>, w: WriteOutcome)
    requires Inv(s) && s.state == Connected && s.output == [] && InterestMatches(s)
    ensures Act(Act(s, Call(Send([], [], cb))), OnWrite(w, [])).state == Disconnected
  {
  }

  // ---------- Registration after the close ----------

  predicate Unregistered(s: Conn) {
    s.state == Disconnected ==> !s.reading && !s.writing && !s.added
  }

  /** The two ways to switch interest on again after a close: a queued ShutdownInLoop that finds
      unsent bytes, and a high-water callback that force-closes under SendInLoop. */
  predicate Rearms(s: Conn, a: Action) {
    || (a.RunTask? && s.queue != [] && s.queue[0].ShutdownTask? && s.state == Disconnected && s.output != [])
    || (SendsNow(s, a).Some? && s.watched && Crosses(s, SendsNow(s, a).value) && CbForceClose in HighWaterOps(a))
  }

  predicate AlwaysUnregistered(s: Conn, actions: seq<Action>)
    decreases |actions|
  {
    Unregistered(s) && (actions != [] ==> AlwaysUnregistered(Act(s, actions[0]), actions[1..]))
  }

  predicate NeverRearms(s: Conn, actions: seq<Action>)
    decreases |actions|
  {
    actions != [] ==> !Rearms(s, actions[0]) && NeverRearms(Act(s, actions[0]), actions[1..])
  }

  lemma UnregisteredStep(s: Conn, a: Action)
    requires Inv(s) && Unregistered(s)
    ensures Unregistered(Act(s, a)) <==> !Rearms(s, a)
  {
    ActKeepsInv(s, a);
    if SendsNow(s, a).Some? {
      SendStep(s, a);
      hide Act, Connections.Inv;
    } else if a.RunTask? && s.queue != [] {
      UnregisteredTask(s, a.meanwhile, a.onHighWater);
    } else {
      hide RunNext, SendInLoop, RunCallback;
      if a.OnWrite? {
        RemoteKeeps(s, a.meanwhile);
      } else if a.Call? && a.call.Send? {
        RefusedSend(s, a.call);
      }
    }
  }

  lemma RefusedSend(s: Conn, op: UserOp)
    requires op.Send? && s.state != Connected
    ensures CallInLoop(s, op) == s
  {
  }

  lemma UnregisteredTask(s: Conn, meanwhile: seq<RemoteOp>, cb: seq<CallbackOp>)
    requires Inv(s) && Unregistered(s) && s.queue != [] && !(s.queue[0].SendTask? && s.state == Connected)
    ensures Unregistered(RunNext(s, meanwhile, cb)) <==>
              !(s.queue[0].ShutdownTask? && s.state == Disconnected && s.output != [])
  {
    TaskKeepsInv(s, meanwhile, cb);
    hide RunCallback, RemoteAll;
  }

  /** A disconnected connection has no interest and no poller registration throughout a run
      exactly when neither of the two re-arming steps happens. */
  lemma {:induction false} DisconnectedUnregisteredIff(s: Conn, actions: seq<Action>)
    requires Inv(s) && Unregistered(s)
    ensures AlwaysUnregistered(s, actions) <==> NeverRearms(s, actions)
    decreases |actions|
  {
    if actions != [] {
      UnregisteredStep(s, actions[0]);
      ActKeepsInv(s, actions[0]);
      if Unregistered(Act(s, actions[0])) {
        DisconnectedUnregisteredIff(Act(s, actions[0]), actions[1..]);
      }
    }
  }

  /** Callers can make sure of that: no other thread calls Shutdown, and no high-water callback calls
      ForceClose. */
  predicate GentleCallback(ops: seq<CallbackOp>) {
    forall i :: 0 <= i < |ops| ==>
      && ops[i] != CbForceClose && ops[i] != CbMeanwhile(RemoteShutdown)
      && (ops[i].CbSend? ==> RemoteShutdown !in ops[i].meanwhile)
  }

  predicate Gentle(a: Action) {
    match a
    case OnClose => true
    case OnRead(_) => true
    case OnWrite(_, meanwhile) => RemoteShutdown !in meanwhile
    case Call(op) => op.Send? ==> RemoteShutdown !in op.meanwhile && GentleCallback(op.onHighWater)
    case Remote(op) => op != RemoteShutdown
    case RunTask(meanwhile, cb) => RemoteShutdown !in meanwhile && GentleCallback(cb)
  }

  lemma {:induction false} NoShutdownQueued(s: Conn, ops: seq<RemoteOp>)
    requires ShutdownTask !in s.queue && RemoteShutdown !in ops
    ensures ShutdownTask !in RemoteAll(s, ops).queue
    decreases |ops|
  {
    if ops != [] {
      NoShutdownQueued(CallRemotely(s, ops[0]), ops[1..]);
    }
  }

  lemma {:induction false} GentleCallbackKeeps(s: Conn, ops: seq<CallbackOp>)
    requires ShutdownTask !in s.queue && GentleCallback(ops)
    ensures ShutdownTask !in RunCallback(s, ops).queue
    decreases |ops|
  {
    if ops != [] {
      if ops[0].CbSend? {
        NoShutdownQueued(s, ops[0].meanwhile);
      }
      GentleCallbackKeeps(CallbackStep(s, ops[0]), ops[1..]);
    }
  }

  lemma GentleSend(s: Conn, data: Data, meanwhile: seq<RemoteOp>, cb: seq<CallbackOp>)
    requires ShutdownTask !in s.queue && RemoteShutdown !in meanwhile && GentleCallback(cb)
    ensures ShutdownTask !in SendInLoop(s, data, meanwhile, cb).queue
  {
    NoShutdownQueued(s, meanwhile);
    GentleCallbackKeeps(AtCallback(s, data, meanwhile), cb);
  }

  lemma CloseKeepsQueue(s: Conn)
    ensures HandleClose(s).queue == ForceCloseInLoop(s).queue == s.queue
    ensures ConnectDestroyed(s).queue == ShutdownInLoop(s).queue == s.queue
  {
  }

  lemma GentleTask(s: Conn, meanwhile: seq<RemoteOp>, cb: seq<CallbackOp>)
    requires s.queue != [] && ShutdownTask !in s.queue && RemoteShutdown !in meanwhile && GentleCallback(cb)
    ensures ShutdownTask !in RunNext(s, meanwhile, cb).queue
  {
    hide SendInLoop, HandleClose, ForceCloseInLoop, ConnectDestroyed, ShutdownInLoop;
    assert s.queue[0] in s.queue;
    CloseKeepsQueue(s.(queue := s.queue[1..]));
    if s.queue[0].SendTask? {
      GentleSend(s.(queue := s.queue[1..]), s.queue[0].data, meanwhile, cb);
    }
  }

  lemma GentleWrite(s: Conn, w: WriteOutcome, meanwhile: seq<RemoteOp>)
    requires ShutdownTask !in s.queue && RemoteShutdown !in meanwhile
    ensures ShutdownTask !in HandleWrite(s, w, meanwhile).queue
  {
    NoShutdownQueued(s, meanwhile);
  }

  lemma GentleCall(s: Conn, op: UserOp)
    requires ShutdownTask !in s.queue && Gentle(Call(op))
    ensures ShutdownTask !in CallInLoop(s, op).queue
  {
    hide SendInLoop, ForceCloseInLoop, ShutdownInLoop;
    CloseKeepsQueue(s.(state := Disconnecting));
    if op.Send? {
      GentleSend(s, op.data, op.meanwhile, op.onHighWater);
    }
  }

  lemma GentleRemote(s: Conn, op: RemoteOp)
    requires ShutdownTask !in s.queue && op != RemoteShutdown
    ensures ShutdownTask !in CallRemotely(s, op).queue
  {
  }

  lemma GentleRead(s: Conn, r: ReadOutcome)
    ensures HandleRead(s, r).queue == s.queue
  {
  }

  lemma GentleStep(s: Conn, a: Action)
    requires ShutdownTask !in s.queue && Gentle(a)
    ensures ShutdownTask !in Act(s, a).queue
  {
    hide HandleWrite, HandleRead, RunNext, HandleClose, CallInLoop, CallRemotely, GentleCallback;
    match a
    case OnClose => CloseKeepsQueue(s);
    case OnRead(r) => GentleRead(s, r);
    case OnWrite(w, meanwhile) => GentleWrite(s, w, meanwhile);
    case Call(op) => GentleCall(s, op);
    case Remote(op) => GentleRemote(s, op);
    case RunTask(meanwhile, cb) => if s.queue != [] { GentleTask(s, meanwhile, cb); }
  }

  lemma GentleIsNoRearm(s: Conn, a: Action)
    requires ShutdownTask !in s.queue && Gentle(a)
    ensures !Rearms(s, a)
  {
  }

  lemma {:induction false} GentleNeverRearms(s: Conn, actions: seq<Action>)
    requires ShutdownTask !in s.queue && forall i :: 0 <= i < |actions| ==> Gentle(actions[i])
    ensures NeverRearms(s, actions)
    decreases |actions|
  {
    if actions != [] {
      GentleStep(s, actions[0]);
      GentleIsNoRearm(s, actions[0]);
      GentleNeverRearms(Act(s, actions[0]), actions[1..]);
    }
  }

  lemma GentleCallersSuffice(mark: nat, watched: bool, actions: seq<Action>)
    requires forall i :: 0 <= i < |actions| ==> Gentle(actions[i])
    ensures AlwaysUnregistered(NewConn(mark, watched), actions)
  {
    GentleNeverRearms(NewConn(mark, watched), actions);
    DisconnectedUnregisteredIff(NewConn(mark, watched), actions);
  }

  /** The failing runs: another thread asks for a shutdown with bytes queued, the peer hangs up,
      and only then the loop gets to the queued ShutdownInLoop; */
  lemma StaleShutdownReregisters(s: Conn, cb: seq<CallbackOp>)
    requires Inv(s) && s.state == Connected && s.queue == [] && s.output != []
    ensures var t := Act(Act(Act(s, Remote(RemoteShutdown)), OnClose), RunTask([], cb));
            t.state == Disconnected && !t.open && t.added && t.writing
  {
  }

  /** and a high-water callback closes the connection under the send that made it. */
  lemma CallbackCloseReregisters(s: Conn, data: Data)
    requires Inv(s) && s.state == Connected && s.watched && Crosses(s, data)
    ensures var t := Act(s, Call(Send(data, [], [CbForceClose])));
            t.state == Disconnected && !t.open && t.added && t.writing
  {
  }

  // ---------- Back-pressure ----------

  /** How often the queue goes from below the mark to the mark or above. */
  function Crossings(s: Conn, actions: seq<Action>): nat
    decreases |actions|
  {
    if actions == [] then 0
    else
      var t := Act(s, actions[0]);
      (if |s.output| < s.highWaterMark <= |t.output| then 1 else 0) + Crossings(t, actions[1..])
  }

  lemma CrossingStep(s: Conn, a: Action)
    requires Inv(s)
    ensures var t := Act(s, a);
            && t.highWaterMark == s.highWaterMark && t.watched == s.watched
            && t.highWaterCalls == s.highWaterCalls + HighWaterCall(s, t)
            && (|t.output| < |s.output| ==> a.OnWrite?)
  {
    hide Connections.Inv, SentNow;
    if SendsNow(s, a).Some? {
      SendGrows(s, a);
    } else if a.OnWrite? && s.state == Connected {
      WriteShrinks(s, a.write, a.meanwhile);
    } else {
      QuietStep(s, a);
    }
  }

  lemma SendGrows(s: Conn, a: Action)
    requires Inv(s) && SendsNow(s, a).Some?
    ensures var t := Act(s, a);
            && t.highWaterMark == s.highWaterMark && t.watched == s.watched
            && t.highWaterCalls == s.highWaterCalls + HighWaterCall(s, t) && |t.output| >= |s.output|
  {
    hide Act;
    SendStep(s, a);
  }

  lemma WriteShrinks(s: Conn, w: WriteOutcome, meanwhile: seq<RemoteOp>)
    ensures var t := HandleWrite(s, w, meanwhile);
            && t.highWaterMark == s.highWaterMark && t.watched == s.watched
            && t.highWaterCalls == s.highWaterCalls && |t.output| <= |s.output|
  {
    hide Connections.Inv, HandleClose, AfterWrite;
    RemoteKeeps(s, meanwhile);
    var s1 := RemoteAll(s, meanwhile);
    CloseKeepsOutput(s1);
    if s1.output != [] && w.Wrote? && w.n > 0 {
      AfterWriteShrinks(s1, Min(w.n, |s1.output|));
    }
  }

  lemma AfterWriteShrinks(s: Conn, k: nat)
    requires 0 < k <= |s.output|
    ensures var t := AfterWrite(s, k);
            && t.highWaterMark == s.highWaterMark && t.watched == s.watched
            && t.highWaterCalls == s.highWaterCalls && |t.output| <= |s.output|
  {
  }

  /** High-water callbacks and upward crossings of the mark correspond one to one, if one is set. */
  lemma {:induction false} HighWaterCallsAreCrossings(s: Conn, actions: seq<Action>)
    requires Inv(s)
    ensures Run(s, actions).highWaterCalls == s.highWaterCalls + if s.watched then Crossings(s, actions) else 0
    decreases |actions|
  {
    if actions != [] {
      ActKeepsInv(s, actions[0]);
      CrossingStep(s, actions[0]);
      HighWaterCallsAreCrossings(Act(s, actions[0]), actions[1..]);
    }
  }

  /** From a full queue, no further callback until a write has brought it below the mark. */
  lemma {:induction false} SilentUntilDrained(s: Conn, actions: seq<Action>)
    requires Inv(s) && |s.output| >= s.highWaterMark
    ensures Run(s, actions).highWaterCalls > s.highWaterCalls ==>
              exists k :: 0 < k <= |actions| && actions[k - 1].OnWrite?
                          && |Run(s, actions[..k]).output| < s.highWaterMark
    decreases |actions|
  {
    if actions != [] && Run(s, actions).highWaterCalls > s.highWaterCalls {
      var t := Act(s, actions[0]);
      ActKeepsInv(s, actions[0]);
      CrossingStep(s, actions[0]);
      assert Run(s, actions[..1]) == Run(t, actions[..1][1..]) == t;
      if |t.output| >= s.highWaterMark {
        SilentUntilDrained(t, actions[1..]);
        var k :| 0 < k <= |actions[1..]| && actions[1..][k - 1].OnWrite?
                 && |Run(t, actions[1..][..k]).output| < s.highWaterMark;
        assert actions[..k + 1][1..] == actions[1..][..k];
        assert Run(s, actions[..k + 1]) == Run(t, actions[1..][..k]);
        assert actions[(k + 1) - 1].OnWrite?;
      }
    }
  }
}
