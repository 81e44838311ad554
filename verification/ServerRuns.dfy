/** Properties of whole runs of the server, for every interleaving of the main loop, the sub loops
    and the threads that stop it or call its connections. */
module ServerRuns {
  import opened Bytes
  import opened Connections
  import opened Servers
  import opened ServerInvariant

  lemma Reachable(steps: seq<Step>)
    ensures ServerInvariant.Inv(Servers.Run(NEW_SERVER, steps))
  {
    NewServerInv();
    RunKeepsInv(NEW_SERVER, steps);
  }

  lemma {:induction false} RunSplit(s: Server, a: seq<Step>, b: seq<Step>)
    ensures Servers.Run(s, a + b) == Servers.Run(Servers.Run(s, a), b)
    decreases |a|
  {
    hide Next;
    if a == [] {
      assert a + b == b;
    } else {
      assert (a + b)[1..] == a[1..] + b;
      RunSplit(Next(s, a[0]), a[1..], b);
    }
  }

  lemma RunOne(s: Server, step: Step)
    ensures Servers.Run(s, [step]) == Next(s, step)
  {
  }

  lemma RunThen(s: Server, steps: seq<Step>, step: Step)
    ensures Servers.Run(s, steps + [step]) == Next(Servers.Run(s, steps), step)
  {
    hide Next;
    RunSplit(s, steps, [step]);
    RunOne(Servers.Run(s, steps), step);
  }

  lemma RunAfter(s: Server, step: Step, steps: seq<Step>)
    ensures Servers.Run(s, [step] + steps) == Servers.Run(Next(s, step), steps)
  {
  }

  // ---------- Removal under fd reuse ----------

  /** The removal takes away an entry that is not its connection's. */
  ghost predicate ErasesForeign(s: Server, u: Server, c: ConnId) {
    exists f :: f in s.table && f !in u.table && s.table[f] != c
  }

  /** A removal functor, however late, erases at most the entry under the fd that it reads. That is its
      own connection's entry, if it runs before m_sockfd is invalid and the entry is still there. It is
      another connection's exactly if it runs between the kernel's close of the fd and the
      invalidation of m_sockfd, and the fd has been accepted again meanwhile. */
  lemma RemovalErasesForeignIff(steps: seq<Step>, c: ConnId)
    requires var s := Servers.Run(NEW_SERVER, steps);
             s.pc.Free? && s.mainQueue != [] && s.mainQueue[0] == RemoveTask(c)
    ensures var s := Servers.Run(NEW_SERVER, steps);
            var u := Next(s, RunMainTask);
            && c in s.conns
            && var l := s.conns[c];
               && (forall f :: f in s.table && f !in u.table ==> f == l.key)
               && (forall f :: f in u.table ==> f in s.table && u.table[f] == s.table[f])
               && (l.key in s.table && s.table[l.key] == c ==>
                     (l.key !in u.table <==> l.closing.ToClose? || l.closing.KernelClosed?))
               && (ErasesForeign(s, u, c) <==>
                     l.closing.KernelClosed? && l.key in s.table && s.table[l.key] > c)
               && (l.fd == INVALID_FD ==> u.table == s.table && u.counts == s.counts)
  {
    Reachable(steps);
    var s := Servers.Run(NEW_SERVER, steps);
    RemovalStep(s, c);
  }

  lemma RemovalStep(s: Server, c: ConnId)
    requires TableInv(s) && s.pc.Free? && s.mainQueue != [] && s.mainQueue[0] == RemoveTask(c)
    ensures var u := Next(s, RunMainTask);
            && c in s.conns
            && var l := s.conns[c];
               && (l.fd == l.key || l.fd == INVALID_FD)
               && (l.fd == INVALID_FD <==> !l.closing.ToClose? && !l.closing.KernelClosed?)
               && u.table == s.table - {l.fd}
               && (l.key in s.table ==> s.table[l.key] >= c && (l.closing.ToClose? ==> s.table[l.key] == c))
               && l.key >= 0 && INVALID_FD !in s.table
               && (l.fd == INVALID_FD ==> u.counts == s.counts)
  {
    assert MainTaskOk(s, s.mainQueue[0]);
    assert ConnOk(s, c) && EntryOk(s, INVALID_FD);
  }

  /** A server whose first connection is in state `l`. */
  function WithFirst(fd: Fd, l: Life, tasks: seq<MainTask>): Server {
    NEW_SERVER.(table := map[fd := 0], conns := map[0 := l], nextConn := 1, mainQueue := tasks, started := true,
                counts := Counts(1, 0, 0, 0))
  }

  lemma FirstIsEstablished(fd: Fd)
    requires fd >= 0
    ensures var s := Next(NEW_SERVER.(started := true), Accept(fd));
            Next(s, RunConnTask(0, false)) == WithFirst(fd, Life(Connected, fd, fd, [], NotClosing), [])
  {
    var l := Life(Connecting, fd, fd, [Establish], NotClosing);
    assert Next(NEW_SERVER.(started := true), Accept(fd)) == WithFirst(fd, l, []);
    assert TaskEffect(l, false) == Effect(Life(Connected, fd, fd, [], NotClosing), false);
  }

  lemma FirstIsClosedByKernel(fd: Fd)
    requires fd >= 0
    ensures var s := WithFirst(fd, Life(Connected, fd, fd, [], NotClosing), []);
            Next(Next(s, PeerClose(0)), GoOnClosing(0))
            == WithFirst(fd, Life(Disconnected, fd, fd, [], KernelClosed(false)), [RemoveTask(0)])
  {
  }

  lemma SecondLosesItsEntry(s: Server, fd: Fd)
    requires fd >= 0 && s == WithFirst(fd, Life(Disconnected, fd, fd, [], KernelClosed(false)), [RemoveTask(0)])
    ensures var u := Next(Next(s, Accept(fd)), RunMainTask);
            u.table == map[] && 1 in u.conns && u.conns[1] == Life(Connecting, fd, fd, [Establish], NotClosing)
  {
  }

  /** The failing run: the peer closes, the kernel closes the fd, accept returns it again, and only then
      the main loop gets to the removal. The new connection lives on without an entry. */
  lemma LateRemovalErasesForeignEntry(fd: Fd) returns (steps: seq<Step>)
    requires fd >= 0
    ensures var u := Servers.Run(NEW_SERVER, steps);
            u.table == map[] && 1 in u.conns && u.conns[1].state == Connected && KernelOpen(u.conns[1])
  {
    var s := WithFirst(fd, Life(Disconnected, fd, fd, [], KernelClosed(false)), [RemoveTask(0)]);
    assert Next(NEW_SERVER, StartCall(false, false)) == NEW_SERVER.(started := true);
    FirstIsEstablished(fd);
    FirstIsClosedByKernel(fd);
    SecondLosesItsEntry(s, fd);
    var u := Next(Next(s, Accept(fd)), RunMainTask);
    assert Next(u, RunConnTask(1, false)) == Take(u, 1, TaskEffect(u.conns[1], false));
    hide Next;
    steps := [StartCall(false, false)];
    RunOne(NEW_SERVER, steps[0]);
    RunThen(NEW_SERVER, steps, Accept(fd));
    steps := steps + [Accept(fd)];
    RunThen(NEW_SERVER, steps, RunConnTask(0, false));
    steps := steps + [RunConnTask(0, false)];
    RunThen(NEW_SERVER, steps, PeerClose(0));
    steps := steps + [PeerClose(0)];
    RunThen(NEW_SERVER, steps, GoOnClosing(0));
    steps := steps + [GoOnClosing(0)];
    RunThen(NEW_SERVER, steps, Accept(fd));
    steps := steps + [Accept(fd)];
    RunThen(NEW_SERVER, steps, RunMainTask);
    steps := steps + [RunMainTask];
    RunThen(NEW_SERVER, steps, RunConnTask(1, false));
    steps := steps + [RunConnTask(1, false)];
  }

  // ---------- Accounts ----------

  /** accepted = closed + active + overwritten by fd reuse + swept by a stop. */
  lemma ConnectionAccounting(steps: seq<Step>)
    ensures var s := Servers.Run(NEW_SERVER, steps);
            && s.counts.total == s.counts.closed + |s.table| + s.counts.overwritten + s.counts.swept
            && s.counts.closed + |s.table| <= s.counts.total
  {
    Reachable(steps);
  }

  // ---------- Graceful stop ----------

  /** While a stop goes on the table only shrinks. */
  lemma TableOnlyShrinks(steps: seq<Step>, step: Step)
    requires Servers.Run(NEW_SERVER, steps).stopping
    ensures var s, u := Servers.Run(NEW_SERVER, steps), Next(Servers.Run(NEW_SERVER, steps), step);
            forall f :: f in u.table ==> f in s.table && u.table[f] == s.table[f]
  {
    hide Next;
    Reachable(steps);
    var s := Servers.Run(NEW_SERVER, steps);
    if step.Accept? {
      RefusedAccept(s, step.fd);
    } else {
      NextEvolves(s, step);
    }
  }

  /** In a session that began with nobody Connecting the deadline timer is live whenever the main thread
      is free and the stop is not over, and its callback returns with the stop complete, whatever
      happens before it and while it runs. */
  lemma StopCompleteAtDeadline(steps: seq<Step>)
    ensures var s := Servers.Run(NEW_SERVER, steps);
            s.stopping && s.calls.clean ==>
              && (s.pc.Free? ==>
                    && Live(s.stop, s.stop.deadlineId, DeadlineTimer)
                    && Next(s, Fire(s.stop.deadlineId)).pc == Sweeping(s.table.Keys, {}, true))
              && (Enabled(s, EndFinalize) ==> Complete(Next(s, EndFinalize)))
  {
    Reachable(steps);
    var s := Servers.Run(NEW_SERVER, steps);
    hide TableInv, Balanced, SessionInv, StopOk, CleanInv;
    if s.stopping && s.calls.clean && Enabled(s, EndFinalize) {
      CleanFinalize(s);
    }
  }

  /** Each session that is over has fired the completion callback registered last, exactly once;
      a session that is not over has fired none. */
  lemma CompletionCallbackOnce(steps: seq<Step>, session: nat)
    ensures var s := Servers.Run(NEW_SERVER, steps);
            FiredIn(s.calls.fired, session) ==
            match LastRegistered(s.calls.registered, session)
            case Some(cb) => if IsOver(s, session) then [cb] else []
            case None => []
  {
    Reachable(steps);
    assert SessionOk(Servers.Run(NEW_SERVER, steps), session);
  }

  // ---------- A stop ends with its last entry ----------

  /** Past the walk, a stop that goes on has something to wait for, and the check timer is live. */
  ghost predicate Lingers(s: Server) {
    && (s.stopping && s.pc.Free? ==> s.table != map[])
    && (s.stopping && (s.pc.Free? || (Finalizing(s.pc) && s.pc.force)) ==> Live(s.stop, s.stop.checkId, CheckTimer))
  }

  lemma MainTaskLingers(s: Server)
    requires Lingers(s) && Enabled(s, RunMainTask)
    ensures Lingers(Next(s, RunMainTask))
  {
  }

  lemma NextLingers(s: Server, step: Step)
    requires TimersInv(s) && Lingers(s)
    ensures Lingers(Next(s, step))
  {
    hide StopOk, FreshFd, NobodyConnecting, WithDeadline, WithScans, Cleared;
    if OnConnection(step) {
      ConnectionFrame(s, step);
    } else if InFinalize(step) {
      FinalizeFrame(s, step);
    } else if Enabled(s, step) {
      match step
      case RunMainTask => MainTaskLingers(s);
      case EndWalk => WithDeadlineOk(s.stop);
      case _ =>
    }
  }

  lemma {:induction false} RunLingers(s: Server, steps: seq<Step>)
    requires ServerInvariant.Inv(s) && Lingers(s)
    ensures Lingers(Servers.Run(s, steps))
    decreases |steps|
  {
    hide Next, Lingers, StopOk, TableInv, Balanced, CleanInv, SessionInv, Armed;
    if steps != [] {
      NextLingers(s, steps[0]);
      NextKeepsInv(s, steps[0]);
      RunLingers(Next(s, steps[0]), steps[1..]);
    }
  }

  /** The step that takes the last entry out of the table goes on to end the stop: past the walk, a
      server that is still stopping with its main thread free never has an empty table. So the live
      check timer never finds one either. */
  lemma StopEndsWithLastEntry(steps: seq<Step>)
    ensures var s := Servers.Run(NEW_SERVER, steps);
            s.stopping && s.pc.Free? ==>
              && s.table != map[]
              && Live(s.stop, s.stop.checkId, CheckTimer)
              && Next(s, Fire(s.stop.checkId)) == s
  {
    NewServerInv();
    RunLingers(NEW_SERVER, steps);
  }

  // ---------- Exactly when the deadline is met ----------

  /** If the callback of the deadline is about to return, the stop is complete when it has. */
  ghost predicate DeadlineMet(u: Server, session: nat) {
    u.calls.session == session && Enabled(u, EndFinalize) && u.pc.force ==> Complete(Next(u, EndFinalize))
  }

  /** In every continuation of this session. */
  ghost predicate AlwaysMeetsDeadline(t: Server) {
    forall steps :: DeadlineMet(Servers.Run(t, steps), t.calls.session)
  }

  lemma SessionStep(s: Server, step: Step)
    ensures var u := Next(s, step);
            || (u.calls.session == s.calls.session && u.calls.clean == s.calls.clean)
            || u.calls.session == s.calls.session + 1
  {
    hide FreshFd, NobodyConnecting, WithDeadline, WithScans, Cleared;
    if OnConnection(step) {
      ConnectionFrame(s, step);
    } else if InFinalize(step) {
      FinalizeFrame(s, step);
    }
  }

  lemma {:induction false} SessionRun(s: Server, steps: seq<Step>)
    ensures var u := Servers.Run(s, steps);
            && u.calls.session >= s.calls.session
            && (u.calls.session == s.calls.session ==> u.calls.clean == s.calls.clean)
    decreases |steps|
  {
    hide Next;
    if steps != [] {
      SessionStep(s, steps[0]);
      SessionRun(Next(s, steps[0]), steps[1..]);
    }
  }

  /** A stop called in this state begins a session. */
  ghost predicate CanStop(s: Server) {
    ServerInvariant.Inv(s) && s.started && !s.stopping && s.pc.Free?
  }

  lemma CleanSession(s: Server, cb: Option<CallbackId>, steps: seq<Step>)
    requires CanStop(s) && NobodyConnecting(s)
    ensures var t := Next(s, StopCall(cb));
            var u := Servers.Run(t, steps);
            && t.calls.session == s.calls.session + 1 && ServerInvariant.Inv(u)
            && (u.calls.session == t.calls.session ==> u.calls.clean)
  {
    var t := Next(s, StopCall(cb));
    NextKeepsInv(s, StopCall(cb));
    RunKeepsInv(t, steps);
    SessionRun(t, steps);
  }

  lemma CleanStopMeetsDeadline(s: Server, cb: Option<CallbackId>, steps: seq<Step>)
    requires CanStop(s) && NobodyConnecting(s)
    ensures DeadlineMet(Servers.Run(Next(s, StopCall(cb)), steps), s.calls.session + 1)
  {
    var u := Servers.Run(Next(s, StopCall(cb)), steps);
    CleanSession(s, cb, steps);
    hide Next, TableInv, Balanced, SessionInv, StopOk, CleanInv;
    if u.calls.session == s.calls.session + 1 && Enabled(u, EndFinalize) {
      CleanFinalize(u);
    }
  }

  /** A connection in the table that has yet to be established. */
  ghost predicate Unborn(s: Server, f: Fd) {
    f in s.table && s.table[f] in s.conns && s.conns[s.table[f]].state == Connecting
  }

  lemma SomeOf(fds: set<Fd>) returns (f: Fd)
    requires fds != {}
    ensures f in fds
  {
    if !exists g :: g in fds {
      assert false;
    }
    f :| f in fds;
  }

  lemma InvGivesEntry(s: Server, f: Fd)
    requires ServerInvariant.Inv(s) && f in s.table
    ensures EntryOk(s, f) && LifeOk(s.conns[s.table[f]])
  {
    assert EntryOk(s, f) && ConnOk(s, s.table[f]);
  }

  /** The walk goes through the table and leaves such a connection alone. */
  lemma {:induction false} WalkAll(s: Server, f: Fd) returns (steps: seq<Step>)
    requires ServerInvariant.Inv(s) && s.stopping && s.pc.Walking? && s.pc.todo <= s.table.Keys && Unborn(s, f)
    ensures var u := Servers.Run(s, steps);
            && ServerInvariant.Inv(u) && u.stopping && u.pc == Walking({}) && Unborn(u, f)
            && u.calls.session == s.calls.session
    decreases |s.pc.todo|
  {
    hide ServerInvariant.Inv;
    if s.pc.todo != {} {
      var g := SomeOf(s.pc.todo);
      InvGivesEntry(s, g);
      InvGivesEntry(s, f);
      NextKeepsInv(s, WalkOne(g));
      var rest := WalkAll(Next(s, WalkOne(g)), f);
      steps := [WalkOne(g)] + rest;
      RunAfter(s, WalkOne(g), rest);
    } else {
      steps := [];
    }
  }

  /** The main thread is inside the callback of the deadline, and `f` is an entry with an open
      connection. No other deadline is ahead. */
  ghost predicate Overdue(s: Server, f: Fd, session: nat) {
    && ServerInvariant.Inv(s) && s.stopping && s.calls.session == session
    && f in s.table && IsOpen(s, s.table[f])
    && (forall id :: !Live(s.stop, id, DeadlineTimer))
  }

  /** From the end of the walk: it is established, stays connected, and the deadline comes. */
  lemma LateBirth(s: Server, f: Fd) returns (steps: seq<Step>)
    requires ServerInvariant.Inv(s) && s.stopping && s.pc == Walking({}) && Unborn(s, f)
    ensures var u := Servers.Run(s, steps);
            Overdue(u, f, s.calls.session) && IsConnected(u, f) && u.pc == Sweeping(u.table.Keys, {}, true)
  {
    hide ServerInvariant.Inv;
    var c := s.table[f];
    InvGivesEntry(s, f);
    var s1 := Next(s, EndWalk);
    NextKeepsInv(s, EndWalk);
    WalkArms(s);
    var s2 := Next(s1, RunConnTask(c, false));
    NextKeepsInv(s1, RunConnTask(c, false));
    assert s2 == Take(s1, c, TaskEffect(s1.conns[c], false));
    var id := s2.stop.deadlineId;
    var s3 := Next(s2, Fire(id));
    NextKeepsInv(s2, Fire(id));
    assert s3 == FireTimer(s2, id);
    LastDeadline(s2, id);
    assert Overdue(s3, f, s.calls.session);
    hide Next;
    RunOne(s, EndWalk);
    RunThen(s, [EndWalk], RunConnTask(c, false));
    RunThen(s, [EndWalk] + [RunConnTask(c, false)], Fire(id));
    steps := [EndWalk] + [RunConnTask(c, false)] + [Fire(id)];
  }

  lemma WalkArms(s: Server)
    requires ServerInvariant.Inv(s) && s.pc == Walking({}) && s.table != map[]
    ensures var u := Next(s, EndWalk);
            && u == s.(pc := Free, stop := u.stop)
            && Live(u.stop, u.stop.deadlineId, DeadlineTimer)
  {
  }

  lemma LastDeadline(s: Server, id: TimerId)
    requires ServerInvariant.Inv(s) && Live(s.stop, id, DeadlineTimer)
    ensures forall x :: !Live(s.stop.(timers := s.stop.timers - {id}), x, DeadlineTimer)
  {
    forall x
      ensures !Live(s.stop.(timers := s.stop.timers - {id}), x, DeadlineTimer)
    {
      assert TimerOk(s.stop, x) && TimerOk(s.stop, id);
    }
  }

  /** The three loops of FinalizeGracefulStop run to their end and leave a connected entry where it is. */
  lemma {:induction false} SweepAll(s: Server, f: Fd, session: nat) returns (steps: seq<Step>)
    requires Overdue(s, f, session) && IsConnected(s, f)
    requires s.pc.Sweeping? && s.pc.force && s.pc.fds <= s.table.Keys && s.pc.stale <= s.conns.Keys
    ensures var u := Servers.Run(s, steps);
            Overdue(u, f, session) && u.pc.Destroying? && u.pc.force && u.pc.conns <= u.conns.Keys
    decreases |s.pc.fds|
  {
    hide ServerInvariant.Inv;
    if s.pc.fds != {} {
      var g := SomeOf(s.pc.fds);
      InvGivesEntry(s, g);
      NextKeepsInv(s, SweepOne(g));
      var rest := SweepAll(Next(s, SweepOne(g)), f, session);
      steps := [SweepOne(g)] + rest;
      RunAfter(s, SweepOne(g), rest);
    } else {
      NextKeepsInv(s, EndSweep);
      steps := [EndSweep];
      RunOne(s, EndSweep);
    }
  }

  lemma {:induction false} DestroyAll(s: Server, f: Fd, session: nat) returns (steps: seq<Step>)
    requires Overdue(s, f, session) && s.pc.Destroying? && s.pc.force && s.pc.conns <= s.conns.Keys
    ensures var u := Servers.Run(s, steps);
            Overdue(u, f, session) && u.pc.Forcing? && u.pc.force && u.pc.rest <= u.table.Keys
    decreases |s.pc.conns|
  {
    hide ServerInvariant.Inv;
    if s.pc.conns != {} {
      var c :| c in s.pc.conns;
      NextKeepsInv(s, DestroyOne(c));
      assert Next(s, DestroyOne(c)) == DestroyStale(s, c);
      var rest := DestroyAll(DestroyStale(s, c), f, session);
      hide Next, Overdue;
      steps := [DestroyOne(c)] + rest;
      RunAfter(s, DestroyOne(c), rest);
    } else {
      NextKeepsInv(s, EndDestroy);
      steps := [EndDestroy];
      RunOne(s, EndDestroy);
    }
  }

  lemma {:induction false} ForceAll(s: Server, f: Fd, session: nat) returns (steps: seq<Step>)
    requires Overdue(s, f, session) && s.pc.Forcing? && s.pc.force && s.pc.rest <= s.table.Keys
    ensures Overdue(Servers.Run(s, steps), f, session) && Servers.Run(s, steps).pc == Forcing({}, true)
    decreases |s.pc.rest|
  {
    hide ServerInvariant.Inv;
    if s.pc.rest != {} {
      var g := SomeOf(s.pc.rest);
      InvGivesEntry(s, g);
      NextKeepsInv(s, ForceOne(g));
      var rest := ForceAll(Next(s, ForceOne(g)), f, session);
      steps := [ForceOne(g)] + rest;
      RunAfter(s, ForceOne(g), rest);
    } else {
      steps := [];
    }
  }

  lemma StopBegins(s: Server, cb: Option<CallbackId>, f: Fd)
    requires CanStop(s) && Unborn(s, f)
    ensures var t := Next(s, StopCall(cb));
            && ServerInvariant.Inv(t) && t.stopping && t.pc == Walking(t.table.Keys) && Unborn(t, f)
            && t.calls.session == s.calls.session + 1
  {
    hide ServerInvariant.Inv, NobodyConnecting;
    NextKeepsInv(s, StopCall(cb));
  }

  /** A run from the call of StopGracefully to the end of the deadline's callback. */
  lemma RunPastDeadline(s: Server, cb: Option<CallbackId>, f: Fd) returns (steps: seq<Step>)
    requires CanStop(s) && Unborn(s, f)
    ensures var u := Servers.Run(Next(s, StopCall(cb)), steps);
            Overdue(u, f, s.calls.session + 1) && u.pc == Forcing({}, true)
  {
    hide Next, ServerInvariant.Inv, Overdue, Unborn;
    var t := Next(s, StopCall(cb));
    StopBegins(s, cb, f);
    var a := WalkAll(t, f);
    var b := LateBirth(Servers.Run(t, a), f);
    RunSplit(t, a, b);
    var c := SweepAll(Servers.Run(t, a + b), f, t.calls.session);
    RunSplit(t, a + b, c);
    var d := DestroyAll(Servers.Run(t, a + b + c), f, t.calls.session);
    RunSplit(t, a + b + c, d);
    var e := ForceAll(Servers.Run(t, a + b + c + d), f, t.calls.session);
    RunSplit(t, a + b + c + d, e);
    steps := a + b + c + d + e;
  }

  lemma OverdueMisses(u: Server, f: Fd, session: nat)
    requires Overdue(u, f, session) && u.pc == Forcing({}, true)
    ensures !DeadlineMet(u, session)
  {
  }

  /** The deadline is met in every interleaving exactly if no connection in the table is still
      Connecting when StopGracefully is called. */
  lemma StopMeetsDeadlineIff(s: Server, cb: Option<CallbackId>)
    requires CanStop(s)
    ensures AlwaysMeetsDeadline(Next(s, StopCall(cb))) <==> NobodyConnecting(s)
  {
    var t := Next(s, StopCall(cb));
    assert t.calls.session == s.calls.session + 1;
    hide Next, ServerInvariant.Inv, DeadlineMet, Overdue;
    if NobodyConnecting(s) {
      forall steps
        ensures DeadlineMet(Servers.Run(t, steps), t.calls.session)
      {
        CleanStopMeetsDeadline(s, cb, steps);
      }
    } else {
      var f :| f in s.table && s.table[f] in s.conns && s.conns[s.table[f]].state == Connecting;
      var steps := RunPastDeadline(s, cb, f);
      OverdueMisses(Servers.Run(t, steps), f, t.calls.session);
    }
  }

  // ---------- After a missed deadline ----------

  /** The table holds an entry whose socket is closed, nobody has its fd any more, and no deadline is
      ahead. */
  ghost predicate Stuck(s: Server, f: Fd) {
    && s.stopping && s.pc.Free?
    && f in s.table && s.table[f] in s.conns && s.conns[s.table[f]].fd == INVALID_FD
    && (forall c :: c in s.conns ==> s.conns[c].fd != f)
    && (forall id :: !Live(s.stop, id, DeadlineTimer))
  }

  lemma StuckConns(s: Server, f: Fd, u: Server)
    requires ServerInvariant.Inv(s) && Stuck(s, f) && Evolved(s, u)
    requires f in u.table && u.stop.timers.Keys <= s.stop.timers.Keys
    requires forall id :: id in u.stop.timers ==> u.stop.timers[id] == s.stop.timers[id]
    requires u.stopping && u.pc.Free?
    ensures Stuck(u, f)
  {
    assert EntryOk(s, f);
    assert Evolves(s.conns[s.table[f]], u.conns[s.table[f]]);
    forall c | c in u.conns
      ensures u.conns[c].fd != f
    {
      assert Evolves(s.conns[c], u.conns[c]);
    }
    forall id
      ensures !Live(u.stop, id, DeadlineTimer)
    {
      assert !Live(s.stop, id, DeadlineTimer);
    }
  }

  /** No step of the main thread gets further. */
  lemma StuckMain(s: Server, f: Fd, step: Step)
    requires FlagsOk(s) && Stuck(s, f) && !OnConnection(step)
    ensures var u := Next(s, step);
            u.stopping && u.pc.Free? && f in u.table && u.stop == s.stop
  {
    hide NobodyConnecting, FreshFd, WithDeadline, WithScans;
    assert s.table != map[];
    if step.RunMainTask? {
      StuckMainTask(s, f);
    } else if step.Fire? {
      assert !Live(s.stop, step.id, DeadlineTimer);
    }
  }

  lemma StuckMainTask(s: Server, f: Fd)
    requires Stuck(s, f)
    ensures var u := Next(s, RunMainTask); u.stopping && u.pc.Free? && f in u.table && u.stop == s.stop
  {
    hide NobodyConnecting;
    if Enabled(s, RunMainTask) && s.mainQueue[0].RemoveTask? {
      assert f in s.table - {s.conns[s.mainQueue[0].conn].fd};
    }
  }

  lemma StuckStep(s: Server, f: Fd, step: Step)
    requires ServerInvariant.Inv(s) && Stuck(s, f)
    ensures Stuck(Next(s, step), f)
  {
    if step.Accept? {
      RefusedAccept(s, step.fd);
    } else {
      NextEvolves(s, step);
      if OnConnection(step) {
        ConnectionFrame(s, step);
      } else {
        StuckMain(s, f, step);
      }
      hide Next, Evolved, ServerInvariant.Inv;
      StuckConns(s, f, Next(s, step));
    }
  }

  /** Then the stop never completes, in any continuation. */
  lemma {:induction false} StuckForever(s: Server, f: Fd, steps: seq<Step>)
    requires ServerInvariant.Inv(s) && Stuck(s, f)
    ensures Stuck(Servers.Run(s, steps), f)
    decreases |steps|
  {
    hide ServerInvariant.Inv, Stuck, Next;
    if steps != [] {
      StuckStep(s, f, steps[0]);
      NextKeepsInv(s, steps[0]);
      StuckForever(Next(s, steps[0]), f, steps[1..]);
    }
  }

  /** Like Stuck, but connections that had the fd before may not have invalidated their m_sockfd yet. */
  ghost predicate Stranded(s: Server, f: Fd, session: nat) {
    && ServerInvariant.Inv(s) && s.stopping && s.pc.Free? && s.calls.session == session
    && f in s.table && s.table[f] in s.conns && s.conns[s.table[f]].fd == INVALID_FD
    && (forall id :: !Live(s.stop, id, DeadlineTimer))
  }

  /** ForceCloseInLoop closes the socket first, so the removal that it queues will find nothing. */
  lemma ForceCloseStrandsEntry(s: Server, f: Fd, session: nat) returns (steps: seq<Step>)
    requires Overdue(s, f, session) && s.pc == Forcing({}, true)
    ensures Stranded(Servers.Run(s, steps), f, session)
  {
    hide ServerInvariant.Inv;
    var c := s.table[f];
    var s1 := Next(s, EndFinalize);
    NextKeepsInv(s, EndFinalize);
    var s2 := Next(s1, InlineForceClose(c));
    NextKeepsInv(s1, InlineForceClose(c));
    assert s2 == Take(s1, c, ForceCloseNow(s1.conns[c]));
    var s3 := Next(s2, GoOnClosing(c));
    NextKeepsInv(s2, GoOnClosing(c));
    assert s3 == Take(s2, c, CloseFurther(s2.conns[c]));
    var s4 := Next(s3, GoOnClosing(c));
    NextKeepsInv(s3, GoOnClosing(c));
    assert s4 == Take(s3, c, CloseFurther(s3.conns[c]));
    assert Stranded(s4, f, session);
    hide Next;
    RunOne(s, EndFinalize);
    RunThen(s, [EndFinalize], InlineForceClose(c));
    RunThen(s, [EndFinalize] + [InlineForceClose(c)], GoOnClosing(c));
    RunThen(s, [EndFinalize] + [InlineForceClose(c)] + [GoOnClosing(c)], GoOnClosing(c));
    steps := [EndFinalize] + [InlineForceClose(c)] + [GoOnClosing(c)] + [GoOnClosing(c)];
  }

  ghost function HoldersOf(s: Server, f: Fd): set<ConnId> {
    set c | c in s.conns && s.conns[c].fd == f
  }

  lemma HolderIsClosed(s: Server, f: Fd, c: ConnId)
    requires ServerInvariant.Inv(s) && f in s.table && s.table[f] in s.conns
    requires s.conns[s.table[f]].fd == INVALID_FD && c in HoldersOf(s, f)
    ensures s.conns[c].closing.KernelClosed?
  {
    assert ConnOk(s, c) && EntryOk(s, f);
  }

  /** Old holders of the fd finish their close. */
  lemma {:induction false} HoldersLetGo(s: Server, f: Fd, session: nat) returns (steps: seq<Step>)
    requires Stranded(s, f, session)
    ensures Stuck(Servers.Run(s, steps), f) && Servers.Run(s, steps).calls.session == session
    decreases |HoldersOf(s, f)|
  {
    hide ServerInvariant.Inv;
    if HoldersOf(s, f) != {} {
      var c :| c in HoldersOf(s, f);
      HolderIsClosed(s, f, c);
      InvGivesEntry(s, f);
      var s1 := Next(s, GoOnClosing(c));
      NextKeepsInv(s, GoOnClosing(c));
      assert s1 == Take(s, c, CloseFurther(s.conns[c]));
      assert HoldersOf(s1, f) == HoldersOf(s, f) - {c};
      var rest := HoldersLetGo(s1, f, session);
      steps := [GoOnClosing(c)] + rest;
      RunAfter(s, GoOnClosing(c), rest);
    } else {
      steps := [];
      forall c | c in s.conns
        ensures s.conns[c].fd != f
      {
        assert c !in HoldersOf(s, f);
      }
    }
  }

  /** Some continuation of this session gets stuck. */
  ghost predicate CanGetStuck(t: Server) {
    exists steps, f :: Stuck(Servers.Run(t, steps), f) && Servers.Run(t, steps).calls.session == t.calls.session
  }

  /** A stop can get stuck, never to complete, exactly if a connection in the table is still Connecting
      when StopGracefully is called. */
  lemma StopCanGetStuckIff(s: Server, cb: Option<CallbackId>)
    requires CanStop(s)
    ensures CanGetStuck(Next(s, StopCall(cb))) <==> !NobodyConnecting(s)
  {
    var t := Next(s, StopCall(cb));
    assert t.calls.session == s.calls.session + 1;
    hide Next, ServerInvariant.Inv, Overdue;
    if NobodyConnecting(s) {
      forall steps, f | Servers.Run(t, steps).calls.session == t.calls.session
        ensures !Stuck(Servers.Run(t, steps), f)
      {
        CleanSession(s, cb, steps);
        CleanIsNotStuck(Servers.Run(t, steps), f);
      }
    } else {
      var f :| f in s.table && s.table[f] in s.conns && s.conns[s.table[f]].state == Connecting;
      var a := RunPastDeadline(s, cb, f);
      var b := ForceCloseStrandsEntry(Servers.Run(t, a), f, t.calls.session);
      RunSplit(t, a, b);
      var c := HoldersLetGo(Servers.Run(t, a + b), f, t.calls.session);
      RunSplit(t, a + b, c);
      assert Stuck(Servers.Run(t, a + b + c), f);
    }
  }

  lemma CleanIsNotStuck(s: Server, f: Fd)
    requires ServerInvariant.Inv(s) && s.calls.clean
    ensures !Stuck(s, f)
  {
  }
}
