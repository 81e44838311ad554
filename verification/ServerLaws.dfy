/** What the steps of the server come to for those who use it: every request to stop is accounted for and
    its callback fires, the counters count what their names say, connections are registered, removed and
    told to close. */
module ServerLaws {
  import opened Bytes
  import opened Connections
  import opened Servers
  import opened ServerInvariant
  import opened ServerRuns

  // ---------- Requests to stop ----------

  /** The main thread handles a stop in this step: a call of its own, or a queued one. */
  function HandledIn(s: Server, step: Step): Option<Option<CallbackId>> {
    if !s.pc.Free? then None
    else if step.StopCall? then Some(step.cb)
    else if step.RunMainTask? && s.mainQueue != [] && s.mainQueue[0].StopTask? then Some(s.mainQueue[0].cb)
    else None
  }

  /** A stop that is handled registers its callback, unless the server has not been started, when the
      callback is called at once, or there is none to replace that of a stop under way. */
  predicate Refuses(s: Server, cb: Option<CallbackId>) {
    !s.started || (s.stopping && cb.None?)
  }

  lemma HandledStop(s: Server, step: Step)
    requires HandledIn(s, step).Some?
    ensures var u, cb := Next(s, step), HandledIn(s, step).value;
            && u.table == s.table && u.conns == s.conns && u.counts == s.counts && u.stop == s.stop
            && u.started == s.started && u.calls.fired == s.calls.fired
            && (if Refuses(s, cb) then u.calls == s.calls && u.stopping == s.stopping && u.pc == s.pc
                else && u.stopping && u.calls.callback == cb
                     && u.calls.registered == s.calls.registered + [Registration(u.calls.session, cb)]
                     && u.calls.session == s.calls.session + (if s.stopping then 0 else 1)
                     && u.pc == if s.stopping then s.pc else Walking(s.table.Keys))
  {
    hide NobodyConnecting;
  }

  /** The callbacks of the requests that threads make in a run, in order, the main thread's own apart. */
  function RemoteRequests(steps: seq<Step>): seq<Option<CallbackId>> {
    if steps == [] then []
    else (if steps[0].RemoteStop? then [steps[0].cb] else []) + RemoteRequests(steps[1..])
  }

  /** Those of the queued requests that the main thread handles. */
  ghost function RemoteHandled(s: Server, steps: seq<Step>): seq<Option<CallbackId>>
    decreases |steps|
  {
    if steps == [] then []
    else
      (if steps[0].RunMainTask? && HandledIn(s, steps[0]).Some? then [HandledIn(s, steps[0]).value] else [])
      + RemoteHandled(Next(s, steps[0]), steps[1..])
  }

  function QueuedStops(queue: seq<MainTask>): seq<Option<CallbackId>> {
    if queue == [] then []
    else (if queue[0].StopTask? then [queue[0].cb] else []) + QueuedStops(queue[1..])
  }

  lemma {:induction false} QueuedStopsConcat(a: seq<MainTask>, b: seq<MainTask>)
    ensures QueuedStops(a + b) == QueuedStops(a) + QueuedStops(b)
  {
    if a == [] {
      assert a + b == b;
    } else {
      assert (a + b)[0] == a[0] && (a + b)[1..] == a[1..] + b;
      QueuedStopsConcat(a[1..], b);
    }
  }

  lemma QueuedStopsOne(t: MainTask)
    ensures QueuedStops([t]) == if t.StopTask? then [t.cb] else []
  {
    assert [t][1..] == [];
  }

  /** The main queue loses its head to the main thread, and everything new goes behind. */
  ghost predicate QueueMoves(s: Server, step: Step, u: Server) {
    if step.RunMainTask? then u.mainQueue == if Enabled(s, step) then s.mainQueue[1..] else s.mainQueue
    else if step.RemoteStop? then u.mainQueue == s.mainQueue + [StopTask(step.cb)]
    else
      || u.mainQueue == s.mainQueue
      || (OnConnection(step) && u.mainQueue == s.mainQueue + [RemoveTask(step.conn)])
  }

  lemma NextQueue(s: Server, step: Step)
    ensures QueueMoves(s, step, Next(s, step))
  {
    hide FreshFd, NobodyConnecting, WithDeadline, WithScans, Cleared, Fired, IsConnected;
    if OnConnection(step) {
      hide TaskEffect, BeginClose, ForceCloseNow, CloseFurther, InlineShutdownEffect, ShutdownRemotely,
        ForceCloseRemotely;
    } else if OnEntry(step) {
      hide ShutdownRemotely, ForceCloseRemotely;
    } else if !step.Accept? && !step.RunMainTask? {
      OffEntryFrame(s, step);
    }
  }

  lemma RequestStep(s: Server, step: Step)
    requires TasksKnown(s)
    ensures var u := Next(s, step);
            QueuedStops(s.mainQueue) + (if step.RemoteStop? then [step.cb] else [])
            == (if step.RunMainTask? && HandledIn(s, step).Some? then [HandledIn(s, step).value] else [])
               + QueuedStops(u.mainQueue)
  {
    NextQueue(s, step);
    if step.RunMainTask? && s.pc.Free? && s.mainQueue != [] {
      assert s.mainQueue[0] in s.mainQueue && Enabled(s, step);
    } else if step.RemoteStop? {
      QueuedStopsConcat(s.mainQueue, [StopTask(step.cb)]);
      QueuedStopsOne(StopTask(step.cb));
    } else if OnConnection(step) {
      QueuedStopsConcat(s.mainQueue, [RemoveTask(step.conn)]);
      QueuedStopsOne(RemoveTask(step.conn));
    }
  }

  /** Removal functors are for known connections. */
  ghost predicate TasksKnown(s: Server) {
    forall t :: t in s.mainQueue && t.RemoveTask? ==> t.conn in s.conns
  }

  lemma InvKnowsTasks(s: Server)
    requires ServerInvariant.Inv(s)
    ensures TasksKnown(s)
  {
    forall t | t in s.mainQueue && t.RemoveTask?
      ensures t.conn in s.conns
    {
      assert MainTaskOk(s, t);
    }
  }

  /** Requests of other threads are handled in the order in which they were made, each once: in every run
      those handled and those still queued make up those made. */
  lemma {:induction false} RequestsInOrder(s: Server, steps: seq<Step>)
    requires ServerInvariant.Inv(s)
    ensures QueuedStops(s.mainQueue) + RemoteRequests(steps)
         == RemoteHandled(s, steps) + QueuedStops(Servers.Run(s, steps).mainQueue)
    decreases |steps|
  {
    hide Next, ServerInvariant.Inv, HandledIn, QueuedStops, TasksKnown;
    if steps == [] {
      assert QueuedStops(s.mainQueue) + [] == [] + QueuedStops(s.mainQueue);
    } else {
      var u := Next(s, steps[0]);
      InvKnowsTasks(s);
      RequestStep(s, steps[0]);
      NextKeepsInv(s, steps[0]);
      RequestsInOrder(u, steps[1..]);
      var made := if steps[0].RemoteStop? then [steps[0].cb] else [];
      var done := if steps[0].RunMainTask? && HandledIn(s, steps[0]).Some? then [HandledIn(s, steps[0]).value] else [];
      var rest := QueuedStops(Servers.Run(s, steps).mainQueue);
      calc {
        QueuedStops(s.mainQueue) + (made + RemoteRequests(steps[1..]));
        (QueuedStops(s.mainQueue) + made) + RemoteRequests(steps[1..]);
        (done + QueuedStops(u.mainQueue)) + RemoteRequests(steps[1..]);
        done + (QueuedStops(u.mainQueue) + RemoteRequests(steps[1..]));
        done + (RemoteHandled(u, steps[1..]) + rest);
        (done + RemoteHandled(u, steps[1..])) + rest;
      }
    }
  }

  // Each request, whoever makes it, is registered, refused or still queued.

  ghost function MadeIn(s: Server, step: Step): multiset<Option<CallbackId>> {
    if step.RemoteStop? || (step.StopCall? && s.pc.Free?) then multiset{step.cb} else multiset{}
  }

  ghost function RefusedIn(s: Server, step: Step): multiset<Option<CallbackId>> {
    if HandledIn(s, step).Some? && Refuses(s, HandledIn(s, step).value)
    then multiset{HandledIn(s, step).value} else multiset{}
  }

  ghost function Requested(s: Server, steps: seq<Step>): multiset<Option<CallbackId>>
    decreases |steps|
  {
    if steps == [] then multiset{} else MadeIn(s, steps[0]) + Requested(Next(s, steps[0]), steps[1..])
  }

  ghost function Refused(s: Server, steps: seq<Step>): multiset<Option<CallbackId>>
    decreases |steps|
  {
    if steps == [] then multiset{} else RefusedIn(s, steps[0]) + Refused(Next(s, steps[0]), steps[1..])
  }

  function CallbacksOf(regs: seq<Registration>): seq<Option<CallbackId>> {
    seq(|regs|, i requires 0 <= i < |regs| => regs[i].cb)
  }

  ghost function Open(s: Server): multiset<Option<CallbackId>> {
    multiset(CallbacksOf(s.calls.registered)) + multiset(QueuedStops(s.mainQueue))
  }

  lemma RegisteredOnlyByStops(s: Server, step: Step)
    ensures var u := Next(s, step);
            if HandledIn(s, step).Some? && !Refuses(s, HandledIn(s, step).value)
            then u.calls.registered == s.calls.registered + [Registration(u.calls.session, HandledIn(s, step).value)]
            else u.calls.registered == s.calls.registered
  {
    if HandledIn(s, step).Some? {
      HandledStop(s, step);
    } else {
      hide FreshFd, NobodyConnecting, WithDeadline, WithScans, Cleared, IsConnected;
      if OnConnection(step) {
        ConnectionFrame(s, step);
      } else if InFinalize(step) {
        FinalizeFrame(s, step);
      }
    }
  }

  lemma MultisetSum<T>(a: seq<T>, b: seq<T>, c: seq<T>, d: seq<T>)
    requires a + b == c + d
    ensures multiset(a) + multiset(b) == multiset(c) + multiset(d)
  {
    assert multiset(a + b) == multiset(a) + multiset(b) && multiset(c + d) == multiset(c) + multiset(d);
  }

  /** The callbacks registered in this step. */
  ghost function RegisteredIn(s: Server, step: Step): multiset<Option<CallbackId>> {
    if HandledIn(s, step).Some? && !Refuses(s, HandledIn(s, step).value)
    then multiset{HandledIn(s, step).value} else multiset{}
  }

  lemma RegisteredStep(s: Server, step: Step)
    ensures multiset(CallbacksOf(Next(s, step).calls.registered)) ==
            multiset(CallbacksOf(s.calls.registered)) + RegisteredIn(s, step)
  {
    RegisteredOnlyByStops(s, step);
    var was, now := s.calls.registered, Next(s, step).calls.registered;
    hide Next, Refuses, HandledIn;
    if now != was {
      assert CallbacksOf(now) == CallbacksOf(was) + [HandledIn(s, step).value];
    }
  }

  lemma HandledSum(s: Server, step: Step)
    ensures var remote := if step.RemoteStop? then [step.cb] else [];
            var done := if step.RunMainTask? && HandledIn(s, step).Some? then [HandledIn(s, step).value] else [];
            MadeIn(s, step) + multiset(done) == multiset(remote) + RegisteredIn(s, step) + RefusedIn(s, step)
  {
    hide Refuses;
  }

  lemma OpenStep(s: Server, step: Step)
    requires TasksKnown(s)
    ensures Open(s) + MadeIn(s, step) == RefusedIn(s, step) + Open(Next(s, step))
  {
    var u := Next(s, step);
    var remote := if step.RemoteStop? then [step.cb] else [];
    var done := if step.RunMainTask? && HandledIn(s, step).Some? then [HandledIn(s, step).value] else [];
    RequestStep(s, step);
    RegisteredStep(s, step);
    HandledSum(s, step);
    hide Next, QueuedStops, CallbacksOf, MadeIn, RegisteredIn, RefusedIn, HandledIn, TasksKnown;
    MultisetSum(QueuedStops(s.mainQueue), remote, done, QueuedStops(u.mainQueue));
    SumUp(multiset(CallbacksOf(s.calls.registered)), multiset(QueuedStops(s.mainQueue)), MadeIn(s, step),
          multiset(remote), multiset(done), RegisteredIn(s, step), RefusedIn(s, step),
          multiset(QueuedStops(u.mainQueue)));
  }

  lemma SumUp<T>(regs: multiset<T>, queued: multiset<T>, made: multiset<T>, remote: multiset<T>, done: multiset<T>,
                 registered: multiset<T>, refused: multiset<T>, queuedThen: multiset<T>)
    requires queued + remote == done + queuedThen && made + done == remote + registered + refused
    ensures regs + queued + made == refused + (regs + registered + queuedThen)
  {
    forall x
      ensures (regs + queued + made)[x] == (refused + (regs + registered + queuedThen))[x]
    {
      assert (queued + remote)[x] == (done + queuedThen)[x];
      assert (made + done)[x] == (remote + registered + refused)[x];
    }
  }

  lemma ChainSums<T>(open: multiset<T>, made: multiset<T>, refused: multiset<T>, openThen: multiset<T>,
                     madeLater: multiset<T>, refusedLater: multiset<T>, openAtEnd: multiset<T>)
    requires open + made == refused + openThen && openThen + madeLater == refusedLater + openAtEnd
    ensures open + (made + madeLater) == (refused + refusedLater) + openAtEnd
  {
    forall x
      ensures (open + (made + madeLater))[x] == ((refused + refusedLater) + openAtEnd)[x]
    {
      assert (open + made)[x] == (refused + openThen)[x];
      assert (openThen + madeLater)[x] == (refusedLater + openAtEnd)[x];
    }
  }

  /** In every run. */
  lemma {:induction false} RequestsAccountedFor(s: Server, steps: seq<Step>)
    requires ServerInvariant.Inv(s)
    ensures Open(s) + Requested(s, steps) == Refused(s, steps) + Open(Servers.Run(s, steps))
    decreases |steps|
  {
    hide Next, ServerInvariant.Inv, Open, TasksKnown, MadeIn, RefusedIn;
    if steps != [] {
      var u := Next(s, steps[0]);
      InvKnowsTasks(s);
      OpenStep(s, steps[0]);
      NextKeepsInv(s, steps[0]);
      RequestsAccountedFor(u, steps[1..]);
      ChainSums(Open(s), MadeIn(s, steps[0]), RefusedIn(s, steps[0]), Open(u), Requested(u, steps[1..]),
                Refused(u, steps[1..]), Open(Servers.Run(s, steps)));
    }
  }

  /** From the beginning: the registrations, the refused requests and those still queued are exactly the
      requests made. */
  lemma RequestHistory(steps: seq<Step>)
    ensures var s := Servers.Run(NEW_SERVER, steps);
            Requested(NEW_SERVER, steps) ==
            multiset(CallbacksOf(s.calls.registered)) + Refused(NEW_SERVER, steps) + multiset(QueuedStops(s.mainQueue))
  {
    var s := Servers.Run(NEW_SERVER, steps);
    NewServerInv();
    RequestsAccountedFor(NEW_SERVER, steps);
    hide Next, Requested, Refused, QueuedStops, CallbacksOf;
    NothingOpen();
    assert multiset{} + Requested(NEW_SERVER, steps) == Requested(NEW_SERVER, steps);
    Regroup(Refused(NEW_SERVER, steps), multiset(CallbacksOf(s.calls.registered)), multiset(QueuedStops(s.mainQueue)));
  }

  lemma Regroup<T>(a: multiset<T>, b: multiset<T>, c: multiset<T>)
    ensures a + (b + c) == b + a + c
  {
  }

  lemma NothingOpen()
    ensures Open(NEW_SERVER) == multiset{}
  {
    assert CallbacksOf([]) == [] && QueuedStops([]) == [];
  }

  // ---------- The last request of a session ----------

  lemma {:induction false} RegisteredGrows(s: Server, steps: seq<Step>)
    ensures s.calls.registered <= Servers.Run(s, steps).calls.registered
    decreases |steps|
  {
    hide Next, HandledIn, Refuses;
    if steps != [] {
      RegisteredOnlyByStops(s, steps[0]);
      RegisteredGrows(Next(s, steps[0]), steps[1..]);
    }
  }

  lemma {:induction false} LastOf(regs: seq<Registration>, n: nat, session: nat)
    requires n < |regs| && regs[n].session == session
    requires forall i :: n < i < |regs| ==> regs[i].session != session
    ensures LastRegistered(regs, session) == regs[n].cb
    decreases |regs|
  {
    if n < |regs| - 1 {
      LastOf(regs[..|regs| - 1], n, session);
    }
  }

  /** A request with a callback, made by any thread, that the started server gets to and that is the last
      one of its session, has its callback fired exactly once when the session is over, and not before. */
  lemma LastRequestFires(before: seq<Step>, step: Step, cb: CallbackId, after: seq<Step>)
    requires var s := Servers.Run(NEW_SERVER, before); HandledIn(s, step) == Some(Some(cb)) && s.started
    requires var t := Next(Servers.Run(NEW_SERVER, before), step);
             var u := Servers.Run(t, after);
             forall i :: |t.calls.registered| <= i < |u.calls.registered| ==>
               u.calls.registered[i].session != t.calls.session
    ensures var t := Next(Servers.Run(NEW_SERVER, before), step);
            var u := Servers.Run(t, after);
            FiredIn(u.calls.fired, t.calls.session) == if IsOver(u, t.calls.session) then [cb] else []
  {
    var s := Servers.Run(NEW_SERVER, before);
    var t := Next(s, step);
    var u := Servers.Run(t, after);
    HandledStop(s, step);
    var n := |s.calls.registered|;
    RegisteredGrows(t, after);
    assert t.calls.registered[n] == u.calls.registered[n];
    LastOf(u.calls.registered, n, t.calls.session);
    RunThen(NEW_SERVER, before, step);
    RunSplit(NEW_SERVER, before + [step], after);
    hide Next;
    CompletionCallbackOnce(before + [step] + after, t.calls.session);
  }

  // ---------- Counters ----------

  /** m_total_connections counts accepted connections, m_closed_connections removals that found an entry;
      the two history counters count entries lost to fd reuse and entries swept. */
  lemma CountersCount(s: Server, step: Step)
    ensures var c, d := s.counts, Next(s, step).counts;
            var accepts := step.Accept? && Enabled(s, step) && !s.stopping;
            var removes := step.RunMainTask? && Enabled(s, step) && s.mainQueue[0].RemoveTask?
                           && s.conns[s.mainQueue[0].conn].fd in s.table;
            var sweeps := step.SweepOne? && Enabled(s, step)
                          && (s.table[step.f] in s.conns ==> s.conns[s.table[step.f]].state != Connected);
            && d.total == c.total + (if accepts then 1 else 0)
            && d.overwritten == c.overwritten + (if accepts && step.fd in s.table then 1 else 0)
            && d.closed == c.closed + (if removes then 1 else 0)
            && d.swept == c.swept + (if sweeps then 1 else 0)
  {
    if OnConnection(step) {
      ConnectionFrame(s, step);
    } else if OnEntry(step) {
      OnEntryFrame(s, step);
    } else if !step.Accept? && !step.RunMainTask? && !step.SweepOne? {
      OffEntryFrame(s, step);
    } else {
      hide NobodyConnecting, FreshFd;
    }
  }

  // ---------- Connections come and go ----------

  /** A new connection is registered under its fd, waiting to be established; while stopping it is refused. */
  lemma AcceptRegisters(s: Server, fd: Fd)
    requires ServerInvariant.Inv(s) && Enabled(s, Accept(fd))
    ensures var u, c := Next(s, Accept(fd)), s.nextConn;
            && c !in s.conns
            && (if s.stopping then u == s
                else u.table == s.table[fd := c]
                     && u.conns == s.conns[c := Life(Connecting, fd, fd, [Establish], NotClosing)])
  {
    assert ConnOk(s, s.nextConn);
  }

  /** Closing by the peer queues the removal at once; a forced close after the socket is closed. */
  lemma CloseQueuesRemoval(s: Server, c: ConnId)
    requires c in s.conns
    ensures IsOpen(s, c) ==>
              var u := Next(s, PeerClose(c));
              && u.mainQueue == s.mainQueue + [RemoveTask(c)] && u.table == s.table
              && u.conns == s.conns[c := s.conns[c].(state := Disconnected, closing := ToClose(false))]
    ensures IsOpen(s, c) ==>
              var u := Next(s, InlineForceClose(c));
              && u.mainQueue == s.mainQueue && u.table == s.table
              && u.conns == s.conns[c := s.conns[c].(state := Disconnected, closing := ToClose(true))]
    ensures s.conns[c].closing.KernelClosed? ==>
              var u := Next(s, GoOnClosing(c));
              && u.mainQueue == s.mainQueue && c in u.conns && u.conns[c].fd == INVALID_FD
              && (u.conns[c].closing == ToCallback <==> s.conns[c].closing.callback)
    ensures s.conns[c].closing.ToCallback? ==>
              Next(s, GoOnClosing(c)).mainQueue == s.mainQueue + [RemoveTask(c)]
  {
  }

  /** A removal that finds an entry takes it out and has the connection destroyed. */
  lemma RemovalDestroys(s: Server, c: ConnId)
    requires ServerInvariant.Inv(s) && s.pc.Free? && s.mainQueue != [] && s.mainQueue[0] == RemoveTask(c)
    ensures var u := Next(s, RunMainTask);
            && c in s.conns && u.mainQueue == s.mainQueue[1..] && u.table == s.table - {s.conns[c].fd}
            && u.conns == if s.conns[c].fd in s.table
                          then s.conns[c := s.conns[c].(queue := s.conns[c].queue + [DestroyTask])] else s.conns
  {
    assert MainTaskOk(s, s.mainQueue[0]);
  }

  /** An open connection that its peer closes is out of the table when the main loop has run the removal,
      and has been counted as closed. */
  lemma PeerCloseLeavesTable(s: Server, f: Fd)
    requires ServerInvariant.Inv(s) && s.pc.Free? && s.mainQueue == [] && !s.stopping
    requires f in s.table && IsOpen(s, s.table[f])
    ensures var u := Next(Next(s, PeerClose(s.table[f])), RunMainTask);
            u.table == s.table - {f} && u.counts.closed == s.counts.closed + 1 && u.mainQueue == []
  {
    var c := s.table[f];
    CloseQueuesRemoval(s, c);
    InvGivesEntry(s, f);
    NextKeepsInv(s, PeerClose(c));
    var t := Next(s, PeerClose(c));
    assert t.pc == s.pc && t.counts == s.counts by {
      ConnectionFrame(s, PeerClose(c));
    }
    RemovalDestroys(t, c);
    CountersCount(t, RunMainTask);
  }

  // ---------- Calls on connections, and Start ----------

  /** What a thread does to a connection of another loop: the walk of a stop and a user call Shutdown; the
      idle scan, the deadline and a user call ForceClose. */
  lemma CallsReachConnections(s: Server, c: ConnId, f: Fd)
    requires c in s.conns
    ensures var l := s.conns[c];
            var asked := if l.state == Connected
                         then l.(state := Disconnecting, queue := l.queue + [ShutdownTask]) else l;
            var forced := if l.state == Connected || l.state == Disconnecting
                          then l.(state := Disconnecting, queue := l.queue + [ForceCloseTask]) else l;
            && Next(s, RemoteShutdownCall(c)).conns == s.conns[c := asked]
            && Next(s, RemoteForceCloseCall(c)).conns == s.conns[c := forced]
            && (f in s.table && s.table[f] == c ==>
                  && (Enabled(s, WalkOne(f)) ==> Next(s, WalkOne(f)).conns == s.conns[c := asked])
                  && (Enabled(s, CloseIdle(f)) ==> Next(s, CloseIdle(f)).conns == s.conns[c := forced])
                  && (Enabled(s, ForceOne(f)) ==> Next(s, ForceOne(f)).conns == s.conns[c := forced]))
  {
  }

  /** Start sets the flag and arms the scans that are configured. A second one does nothing. */
  lemma StartArms(s: Server, idle: bool, metrics: bool)
    requires ServerInvariant.Inv(s) && s.pc.Free?
    ensures var u := Next(s, StartCall(idle, metrics));
            if s.started then u == s
            else && u == s.(started := true, stop := u.stop)
                 && (idle ==> Live(u.stop, u.stop.idleId, IdleTimer))
                 && (metrics ==> Live(u.stop, u.stop.metricsId, MetricsTimer))
                 && (!idle && !metrics ==> u.stop == s.stop)
  {
    assert StopOk(s.stop);
  }
}
