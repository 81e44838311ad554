/** What every step of the server machine keeps: the table and the connections in it, the accounts, the
    timers of a stop, a clean session, and the record of completion callbacks. */
module ServerInvariant {
  import opened Bytes
  import opened Connections
  import opened Servers

  /** Steps of a connection's own loop, and calls on a connection from elsewhere. */
  predicate OnConnection(step: Step) {
    || step.RunConnTask? || step.PeerClose? || step.GoOnClosing? || step.InlineShutdown? || step.InlineForceClose?
    || step.RemoteShutdownCall? || step.RemoteForceCloseCall?
  }

  lemma ConnectionFrame(s: Server, step: Step)
    requires OnConnection(step)
    ensures var u := Next(s, step); u == s.(conns := u.conns, mainQueue := u.mainQueue)
  {
  }

  /** Steps inside FinalizeGracefulStop's loops. */
  predicate InFinalize(step: Step) {
    step.SweepOne? || step.EndSweep? || step.DestroyOne? || step.EndDestroy? || step.ForceOne?
  }

  predicate Finalizing(pc: MainPc) {
    pc.Sweeping? || pc.Destroying? || pc.Forcing?
  }

  lemma FinalizeFrame(s: Server, step: Step)
    requires InFinalize(step)
    ensures var u := Next(s, step);
            && u == s.(table := u.table, conns := u.conns, counts := u.counts, pc := u.pc)
            && (u == s || (Finalizing(s.pc) && Finalizing(u.pc) && u.pc.force == s.pc.force))
  {
  }

  // ---------- The table and its connections ----------

  ghost predicate LifeOk(l: Life) {
    && l.key >= 0
    && (l.fd == l.key || l.fd == INVALID_FD)
    && (l.fd == INVALID_FD <==> l.state == Disconnected && (l.closing.NotClosing? || l.closing.ToCallback?))
    && (!l.closing.NotClosing? ==> l.state == Disconnected)
    && (if l.state == Connecting then l.queue != [] && l.queue[0] == Establish && Establish !in l.queue[1..]
        else Establish !in l.queue)
  }

  /** An fd that is open in the kernel has its connection's entry or none; and no entry is older than
      a connection that was accepted with its fd. */
  ghost predicate ConnOk(s: Server, c: ConnId) {
    c in s.conns ==>
      var l := s.conns[c];
      && c < s.nextConn && LifeOk(l)
      && (l.key in s.table ==> s.table[l.key] >= c && (KernelOpen(l) ==> s.table[l.key] == c))
  }

  ghost predicate EntryOk(s: Server, f: Fd) {
    f in s.table ==> f >= 0 && s.table[f] in s.conns && s.conns[s.table[f]].key == f
  }

  ghost predicate MainTaskOk(s: Server, t: MainTask) {
    t.RemoveTask? ==> t.conn in s.conns && s.conns[t.conn].state == Disconnected
  }

  ghost predicate TableInv(s: Server) {
    && (forall c :: ConnOk(s, c))
    && (forall f :: EntryOk(s, f))
    && (forall t :: t in s.mainQueue ==> MainTaskOk(s, t))
  }

  /** How a connection may change in one step. */
  ghost predicate Evolves(l: Life, m: Life) {
    && LifeOk(m)
    && m.key == l.key
    && (m.fd == l.fd || m.fd == INVALID_FD)
    && (KernelOpen(m) ==> KernelOpen(l))
    && Rank(m.state) >= Rank(l.state)
  }

  /** How the table side may change in any step that does not accept: no new entry, no changed one. */
  ghost predicate Evolved(s: Server, u: Server) {
    && u.nextConn == s.nextConn && u.conns.Keys == s.conns.Keys
    && (forall c :: c in s.conns ==> Evolves(s.conns[c], u.conns[c]))
    && (forall f :: f in u.table ==> f in s.table && u.table[f] == s.table[f])
    && (forall t :: t in u.mainQueue && t !in s.mainQueue ==> MainTaskOk(u, t))
  }

  lemma EvolvedKeepsTable(s: Server, u: Server)
    requires TableInv(s) && Evolved(s, u)
    ensures TableInv(u)
  {
    forall c
      ensures ConnOk(u, c)
    {
      assert ConnOk(s, c);
      if c in s.conns {
        assert Evolves(s.conns[c], u.conns[c]);
      }
    }
    forall f
      ensures EntryOk(u, f)
    {
      assert EntryOk(s, f);
    }
    forall t | t in u.mainQueue
      ensures MainTaskOk(u, t)
    {
      if t in s.mainQueue {
        assert MainTaskOk(s, t);
      }
    }
  }

  lemma EvolvedTrans(s: Server, t: Server, u: Server)
    requires Evolved(s, t) && Evolved(t, u)
    ensures Evolved(s, u)
  {
  }

  ghost predicate EffectOk(l: Life, e: Effect) {
    Evolves(l, e.life) && (e.removal ==> e.life.state == Disconnected)
  }

  /** One connection changes, and possibly its removal is queued. */
  lemma TakeEvolves(s: Server, c: ConnId, e: Effect)
    requires TableInv(s) && c in s.conns && EffectOk(s.conns[c], e)
    ensures Evolved(s, Take(s, c, e))
  {
    var u := Take(s, c, e);
    forall d | d in s.conns
      ensures Evolves(s.conns[d], u.conns[d])
    {
      assert ConnOk(s, d);
    }
  }

  lemma PostEvolves(l: Life, t: Task)
    requires LifeOk(l) && t != Establish
    ensures Evolves(l, Posted(l, t))
  {
  }

  lemma RemoteCallsEvolve(l: Life)
    requires LifeOk(l)
    ensures Evolves(l, ShutdownRemotely(l)) && Evolves(l, ForceCloseRemotely(l))
  {
  }

  lemma CloseEffects(l: Life)
    requires LifeOk(l) && l.state != Connecting && l.closing.NotClosing?
    ensures EffectOk(l, BeginClose(l)) && EffectOk(l, ForceCloseNow(l)) && EffectOk(l, DestroyNow(l))
  {
  }

  lemma TaskEffectOk(l: Life, drained: bool)
    requires LifeOk(l) && l.queue != [] && l.closing.NotClosing?
    ensures EffectOk(l, TaskEffect(l, drained))
  {
  }

  lemma InlineShutdownOk(l: Life, drained: bool)
    requires LifeOk(l) && l.state == Connected
    ensures EffectOk(l, InlineShutdownEffect(l, drained))
  {
  }

  lemma CloseFurtherOk(l: Life)
    requires LifeOk(l)
    ensures EffectOk(l, CloseFurther(l))
  {
  }

  lemma TableGivesLife(s: Server, c: ConnId)
    requires TableInv(s) && c in s.conns
    ensures LifeOk(s.conns[c])
  {
    assert ConnOk(s, c);
  }

  lemma ConnectionEvolves(s: Server, step: Step)
    requires TableInv(s) && Enabled(s, step) && OnConnection(step)
    ensures Evolved(s, Next(s, step))
  {
    hide Evolved, TableInv, LifeOk, TaskEffect, BeginClose, ForceCloseNow, CloseFurther, InlineShutdownEffect,
      ShutdownRemotely, ForceCloseRemotely;
    var l := s.conns[step.conn];
    TableGivesLife(s, step.conn);
    match step
    case RunConnTask(c, drained) => TaskEffectOk(l, drained); TakeEvolves(s, c, TaskEffect(l, drained));
    case PeerClose(c) => CloseEffects(l); TakeEvolves(s, c, BeginClose(l));
    case GoOnClosing(c) => CloseFurtherOk(l); TakeEvolves(s, c, CloseFurther(l));
    case InlineShutdown(c, drained) =>
      InlineShutdownOk(l, drained);
      TakeEvolves(s, c, InlineShutdownEffect(l, drained));
    case InlineForceClose(c) => CloseEffects(l); TakeEvolves(s, c, ForceCloseNow(l));
    case RemoteShutdownCall(c) => RemoteCallsEvolve(l); TakeEvolves(s, c, Effect(ShutdownRemotely(l), false));
    case RemoteForceCloseCall(c) => RemoteCallsEvolve(l); TakeEvolves(s, c, Effect(ForceCloseRemotely(l), false));
  }

  lemma SelfEvolves(s: Server)
    requires TableInv(s)
    ensures Evolved(s, s)
  {
    forall c | c in s.conns
      ensures Evolves(s.conns[c], s.conns[c])
    {
      assert ConnOk(s, c);
    }
  }

  /** Changes to other fields leave the table side as it is; the table may lose entries, and the main
      queue its head. */
  lemma OtherFields(s: Server, u: Server)
    requires TableInv(s) && u.conns == s.conns && u.nextConn == s.nextConn
    requires forall f :: f in u.table ==> f in s.table && u.table[f] == s.table[f]
    requires forall t :: t in u.mainQueue ==> t in s.mainQueue || t.StopTask?
    ensures Evolved(s, u)
  {
    SelfEvolves(s);
  }

  /** A call on one connection from the main thread, and then other fields. */
  lemma CallEvolves(s: Server, c: ConnId, l: Life, u: Server)
    requires TableInv(s) && c in s.conns && Evolves(s.conns[c], l)
    requires u.conns == s.conns[c := l] && u.nextConn == s.nextConn && u.mainQueue == s.mainQueue
    requires forall f :: f in u.table ==> f in s.table && u.table[f] == s.table[f]
    ensures Evolved(s, u)
  {
    hide TableInv, Evolved, Evolves;
    var s1 := Take(s, c, Effect(l, false));
    TakeEvolves(s, c, Effect(l, false));
    EvolvedKeepsTable(s, s1);
    OtherFields(s1, u);
    EvolvedTrans(s, s1, u);
  }

  lemma RemoveEvolves(s: Server, c: ConnId)
    requires TableInv(s) && c in s.conns
    ensures Evolved(s, RemoveConnection(s, c))
  {
    hide TableInv, Evolved, Evolves;
    TableGivesLife(s, c);
    PostEvolves(s.conns[c], DestroyTask);
    SelfEvolves(s);
    if s.conns[c].fd in s.table {
      CallEvolves(s, c, Posted(s.conns[c], DestroyTask), RemoveConnection(s, c));
    }
  }

  lemma MainTaskEvolves(s: Server)
    requires TableInv(s) && Enabled(s, RunMainTask)
    ensures Evolved(s, Next(s, RunMainTask))
  {
    hide TableInv, Evolved, RemoveConnection;
    var s1 := s.(mainQueue := s.mainQueue[1..]);
    OtherFields(s, s1);
    EvolvedKeepsTable(s, s1);
    if s.mainQueue[0].RemoveTask? {
      RemoveEvolves(s1, s.mainQueue[0].conn);
    } else {
      OtherFields(s1, Next(s, RunMainTask));
    }
    EvolvedTrans(s, s1, Next(s, RunMainTask));
  }

  /** Main-thread steps that call a method on one connection. */
  predicate OnEntry(step: Step) {
    step.WalkOne? || step.CloseIdle? || step.ForceOne? || step.DestroyOne?
  }

  lemma OnEntryEvolves(s: Server, step: Step)
    requires TableInv(s) && Enabled(s, step) && OnEntry(step)
    ensures Evolved(s, Next(s, step))
  {
    hide TableInv, Evolved, Evolves, LifeOk, ShutdownRemotely, ForceCloseRemotely;
    var u := Next(s, step);
    match step
    case WalkOne(f) => EntryEvolves(s, f); CallEvolves(s, s.table[f], ShutdownRemotely(s.conns[s.table[f]]), u);
    case CloseIdle(f) => EntryEvolves(s, f); CallEvolves(s, s.table[f], ForceCloseRemotely(s.conns[s.table[f]]), u);
    case ForceOne(f) => EntryEvolves(s, f); CallEvolves(s, s.table[f], ForceCloseRemotely(s.conns[s.table[f]]), u);
    case DestroyOne(c) =>
      TableGivesLife(s, c);
      PostEvolves(s.conns[c], DestroyTask);
      CallEvolves(s, c, Posted(s.conns[c], DestroyTask), u);
  }

  lemma OffEntryFrame(s: Server, step: Step)
    requires !OnConnection(step) && !OnEntry(step) && !step.Accept? && !step.RunMainTask?
    ensures var u := Next(s, step);
            && u.conns == s.conns && u.nextConn == s.nextConn
            && (!step.SweepOne? ==> u.table == s.table && u.counts == s.counts)
            && (!step.RemoteStop? ==> u.mainQueue == s.mainQueue)
  {
    hide FreshFd, NobodyConnecting, WithDeadline, WithScans, Cleared, Fired, IsConnected;
  }

  lemma MainEvolves(s: Server, step: Step)
    requires TableInv(s) && Enabled(s, step) && !OnConnection(step) && !step.Accept? && !step.RunMainTask?
    ensures Evolved(s, Next(s, step))
  {
    hide TableInv, Evolved;
    if OnEntry(step) {
      OnEntryEvolves(s, step);
    } else {
      OffEntryFrame(s, step);
      OtherFields(s, Next(s, step));
    }
  }

  lemma EntryEvolves(s: Server, f: Fd)
    requires TableInv(s) && f in s.table && s.table[f] in s.conns
    ensures var l := s.conns[s.table[f]]; Evolves(l, ShutdownRemotely(l)) && Evolves(l, ForceCloseRemotely(l))
  {
    TableGivesLife(s, s.table[f]);
    RemoteCallsEvolve(s.conns[s.table[f]]);
  }

  /** Only Accept adds to the table; every other step only lets connections and entries go. */
  lemma NextEvolves(s: Server, step: Step)
    requires TableInv(s)
    ensures !step.Accept? ==> Evolved(s, Next(s, step))
    ensures TableInv(Next(s, step))
  {
    hide TableInv, Evolved, Next;
    if step.Accept? {
      AcceptKeepsTable(s, step.fd);
    } else {
      if !Enabled(s, step) {
        DisabledStays(s, step);
        SelfEvolves(s);
      } else if OnConnection(step) {
        ConnectionEvolves(s, step);
      } else if step.RunMainTask? {
        MainTaskEvolves(s);
      } else {
        MainEvolves(s, step);
      }
      EvolvedKeepsTable(s, Next(s, step));
    }
  }

  lemma DisabledStays(s: Server, step: Step)
    requires !Enabled(s, step)
    ensures Next(s, step) == s
  {
  }

  lemma AcceptKeepsTable(s: Server, fd: Fd)
    requires TableInv(s)
    ensures TableInv(Next(s, Accept(fd)))
  {
    var u := Next(s, Accept(fd));
    if u != s {
      assert ConnOk(s, s.nextConn);
      forall c
        ensures ConnOk(u, c)
      {
        assert ConnOk(s, c);
      }
      forall f
        ensures EntryOk(u, f)
      {
        assert EntryOk(s, f);
      }
      forall t | t in u.mainQueue
        ensures MainTaskOk(u, t)
      {
        assert MainTaskOk(s, t);
      }
    }
  }

  // ---------- Accounts ----------

  /** Every accepted connection is closed, in the table, overwritten there, or swept. */
  ghost predicate Balanced(s: Server) {
    s.counts.total == s.counts.closed + |s.table| + s.counts.overwritten + s.counts.swept
  }

  lemma RemoveBalanced(s: Server, c: ConnId)
    requires Balanced(s) && c in s.conns
    ensures Balanced(RemoveConnection(s, c))
  {
  }

  lemma AcceptBalanced(s: Server, fd: Fd)
    requires Balanced(s)
    ensures Balanced(HandleNewConnection(s, fd))
  {
  }

  lemma OnEntryFrame(s: Server, step: Step)
    requires OnEntry(step)
    ensures Next(s, step).table == s.table && Next(s, step).counts == s.counts
  {
  }

  lemma MainTaskBalanced(s: Server)
    requires Balanced(s) && Enabled(s, RunMainTask)
    ensures Balanced(Next(s, RunMainTask))
  {
    hide RemoveConnection, NobodyConnecting;
    if s.mainQueue[0].RemoveTask? {
      RemoveBalanced(s.(mainQueue := s.mainQueue[1..]), s.mainQueue[0].conn);
    }
  }

  lemma SweepBalanced(s: Server, f: Fd)
    requires Balanced(s)
    ensures Balanced(Next(s, SweepOne(f)))
  {
  }

  lemma NextBalanced(s: Server, step: Step)
    requires Balanced(s)
    ensures Balanced(Next(s, step))
  {
    hide HandleNewConnection, FreshFd;
    if !Enabled(s, step) {
      DisabledStays(s, step);
    } else if OnConnection(step) {
      ConnectionFrame(s, step);
    } else if OnEntry(step) {
      OnEntryFrame(s, step);
    } else if step.Accept? {
      AcceptBalanced(s, step.fd);
    } else if step.RunMainTask? {
      MainTaskBalanced(s);
    } else if step.SweepOne? {
      SweepBalanced(s, step.f);
    } else {
      hide Next;
      OffEntryFrame(s, step);
    }
  }

  // ---------- Timers and the progress of a stop ----------

  /** A live timer is the one whose id is stored for its kind. */
  ghost predicate TimerOk(t: StopTimers, id: TimerId) {
    id in t.timers ==>
      && 0 < id < t.nextTimer
      && id == match t.timers[id]
               case CheckTimer => t.checkId
               case DeadlineTimer => t.deadlineId
               case IdleTimer => t.idleId
               case MetricsTimer => t.metricsId
  }

  ghost predicate StopOk(t: StopTimers) {
    && t.checkId < t.nextTimer && t.deadlineId < t.nextTimer && t.idleId < t.nextTimer && t.metricsId < t.nextTimer
    && forall id :: TimerOk(t, id)
  }

  predicate FlagsOk(s: Server) {
    && (s.stopping ==> s.started)
    && (!s.stopping ==> s.stop.checkId == 0 && s.stop.deadlineId == 0 && s.pc.Free?)
    && (!s.started ==> s.stop.idleId == 0 && s.stop.metricsId == 0)
    && (s.pc.Walking? ==> s.stop.checkId == 0 && s.stop.deadlineId == 0)
  }

  ghost predicate TimersInv(s: Server) {
    StopOk(s.stop) && FlagsOk(s)
  }

  predicate Live(t: StopTimers, id: TimerId, kind: TimerKind) {
    id in t.timers && t.timers[id] == kind
  }

  lemma ClearedOk(t: StopTimers)
    requires StopOk(t)
    ensures StopOk(Cleared(t)) && Cleared(t).timers == map[]
  {
    forall id
      ensures id !in Cleared(t).timers && TimerOk(Cleared(t), id)
    {
      assert TimerOk(t, id);
    }
  }

  lemma WithDeadlineOk(t: StopTimers)
    requires StopOk(t) && t.checkId == 0 && t.deadlineId == 0
    ensures var u := WithDeadline(t);
            StopOk(u) && Live(u, u.deadlineId, DeadlineTimer) && Live(u, u.checkId, CheckTimer)
  {
    forall id
      ensures TimerOk(WithDeadline(t), id)
    {
      assert TimerOk(t, id);
    }
  }

  lemma WithScansOk(t: StopTimers, idle: bool, metrics: bool)
    requires StopOk(t) && t.idleId == 0 && t.metricsId == 0
    ensures var u := WithScans(t, idle, metrics);
            StopOk(u) && u.checkId == t.checkId && u.deadlineId == t.deadlineId
  {
    forall id
      ensures TimerOk(WithScans(t, idle, metrics), id)
    {
      assert TimerOk(t, id);
    }
  }

  lemma FewerTimers(t: StopTimers, id: TimerId)
    requires StopOk(t)
    ensures StopOk(t.(timers := t.timers - {id}))
  {
    forall x
      ensures TimerOk(t.(timers := t.timers - {id}), x)
    {
      assert TimerOk(t, x);
    }
  }

  lemma NextTimers(s: Server, step: Step)
    requires TimersInv(s)
    ensures TimersInv(Next(s, step))
  {
    hide StopOk, Cleared, WithDeadline, WithScans, FreshFd, NobodyConnecting;
    if OnConnection(step) {
      ConnectionFrame(s, step);
    } else if InFinalize(step) {
      FinalizeFrame(s, step);
    } else if Enabled(s, step) {
      match step
      case EndWalk => WithDeadlineOk(s.stop); DeadlineFields(s.stop);
      case Fire(id) => FewerTimers(s.stop, id); FireFlags(s, id);
      case StartCall(idle, metrics) => if !s.started { StartTimers(s, idle, metrics); }
      case EndFinalize => ClearedOk(s.stop); ClearedFields(s.stop);
      case _ =>
    }
  }

  lemma DeadlineFields(t: StopTimers)
    ensures WithDeadline(t).idleId == t.idleId && WithDeadline(t).metricsId == t.metricsId
  {
  }

  lemma ClearedFields(t: StopTimers)
    ensures var u := Cleared(t); u.checkId == u.deadlineId == u.idleId == u.metricsId == 0
  {
  }

  lemma FireFlags(s: Server, id: TimerId)
    requires FlagsOk(s) && s.pc.Free? && id in s.stop.timers
    ensures FlagsOk(FireTimer(s, id))
    ensures var t := FireTimer(s, id).stop; t == s.stop || t == s.stop.(timers := s.stop.timers - {id})
  {
  }

  lemma StartTimers(s: Server, idle: bool, metrics: bool)
    requires TimersInv(s) && !s.started
    ensures TimersInv(Start(s, idle, metrics))
  {
    WithScansOk(s.stop, idle, metrics);
  }

  // ---------- A clean session ----------

  /** In a clean session an entry that the walk has passed is not connected and never will be. */
  ghost predicate Leaving(s: Server, f: Fd) {
    f in s.table && s.table[f] in s.conns ==>
      var state := s.conns[s.table[f]].state;
      state != Connecting && (state == Connected ==> s.pc.Walking? && f in s.pc.todo)
  }

  /** So the sweep lets go of every entry that it comes to. */
  ghost predicate SweptSoFar(s: Server) {
    match s.pc
    case Free => true
    case Walking(_) => true
    case Sweeping(fds, _, _) => s.table.Keys <= fds
    case Destroying(_, _) => s.table == map[]
    case Forcing(_, _) => s.table == map[]
  }

  ghost predicate CleanInv(s: Server) {
    s.stopping && s.calls.clean ==> (forall f :: Leaving(s, f)) && SweptSoFar(s)
  }

  /** Past the walk of a clean session the deadline timer is live until the stop is being finished. */
  ghost predicate Armed(s: Server) {
    s.stopping && s.calls.clean && s.pc.Free? ==> Live(s.stop, s.stop.deadlineId, DeadlineTimer)
  }

  /** The stop is over and has left nothing behind. */
  ghost predicate Complete(s: Server) {
    && s.table == map[]
    && !s.started && !s.stopping
    && s.stop.checkId == 0 && s.stop.deadlineId == 0 && s.stop.idleId == 0 && s.stop.metricsId == 0
    && s.stop.timers == map[]
  }

  /** When the callback of the deadline returns in a clean session, the stop is complete. */
  lemma CleanFinalize(s: Server)
    requires TimersInv(s) && CleanInv(s) && s.stopping && s.calls.clean && Enabled(s, EndFinalize)
    ensures Complete(Next(s, EndFinalize))
  {
    hide StopOk;
    ClearedOk(s.stop);
  }

  /** What a step does to the session: it goes on with the same flag, ends, or a new one begins. */
  ghost predicate SessionMoves(s: Server, u: Server) {
    && (s.stopping && u.stopping ==> u.calls.clean == s.calls.clean)
    && (!s.stopping && u.stopping ==>
          && u.calls.clean == NobodyConnecting(s) && u.pc == Walking(s.table.Keys)
          && u.table == s.table && u.conns == s.conns)
  }

  lemma StopMoves(s: Server, cb: Option<CallbackId>)
    ensures SessionMoves(s, StopGracefully(s, cb))
  {
  }

  lemma NextMoves(s: Server, step: Step)
    requires FlagsOk(s)
    ensures SessionMoves(s, Next(s, step))
  {
    hide NobodyConnecting, FreshFd, WithDeadline, WithScans, StopGracefully;
    if OnConnection(step) {
      ConnectionFrame(s, step);
    } else if InFinalize(step) {
      FinalizeFrame(s, step);
    } else if Enabled(s, step) {
      match step
      case StopCall(cb) => StopMoves(s, cb);
      case RunMainTask => MainTaskMoves(s);
      case _ =>
    }
  }

  lemma MainTaskMoves(s: Server)
    requires Enabled(s, RunMainTask)
    ensures SessionMoves(s, Next(s, RunMainTask))
  {
  }

  /** Where the main thread goes while a stop goes on. */
  lemma PcMoves(s: Server, step: Step)
    requires s.stopping && Next(s, step).stopping && !step.WalkOne? && !step.EndWalk? && !step.Accept?
    ensures s.pc.Walking? ==> Next(s, step).pc == s.pc
    ensures Next(s, step).pc.Walking? ==> Next(s, step).pc == s.pc
  {
    hide NobodyConnecting, FreshFd, WithDeadline, WithScans;
    if OnConnection(step) {
      ConnectionFrame(s, step);
    } else if InFinalize(step) {
      FinalizeFrame(s, step);
    }
  }

  lemma LeavingKept(s: Server, u: Server, f: Fd)
    requires TableInv(s) && Evolved(s, u) && Leaving(s, f)
    requires s.pc.Walking? && f in s.pc.todo ==> u.pc.Walking? && f in u.pc.todo
    ensures Leaving(u, f)
  {
  }

  lemma WalkLeaving(s: Server, step: Step, f: Fd)
    requires TableInv(s) && Leaving(s, f) && (step.WalkOne? || step.EndWalk?)
    requires Evolved(s, Next(s, step))
    ensures Leaving(Next(s, step), f)
  {
  }

  lemma NextLeaving(s: Server, step: Step, f: Fd)
    requires TableInv(s) && s.stopping && Next(s, step).stopping && Leaving(s, f)
    ensures Leaving(Next(s, step), f)
  {
    hide TableInv, Evolved, Next;
    if step.Accept? {
      RefusedAccept(s, step.fd);
    } else {
      NextEvolves(s, step);
      if step.WalkOne? || step.EndWalk? {
        WalkLeaving(s, step, f);
      } else {
        PcMoves(s, step);
        LeavingKept(s, Next(s, step), f);
      }
    }
  }

  lemma RefusedAccept(s: Server, fd: Fd)
    requires s.stopping
    ensures Next(s, Accept(fd)) == s
  {
  }

  /** The sweep of a clean session: every entry that is looked at leaves. */
  lemma NextSwept(s: Server, step: Step)
    requires TableInv(s) && FlagsOk(s) && s.stopping && Next(s, step).stopping && SweptSoFar(s)
    requires forall f :: Leaving(s, f)
    ensures SweptSoFar(Next(s, step))
  {
    hide TableInv, Evolved, NobodyConnecting, FreshFd, WithDeadline, WithScans;
    if OnConnection(step) {
      ConnectionFrame(s, step);
    } else if step.SweepOne? {
      if Enabled(s, step) {
        assert Leaving(s, step.f);
        assert !IsConnected(s, step.f);
      }
    } else if InFinalize(step) {
      FinalizeFrame(s, step);
    }
  }

  lemma NextClean(s: Server, step: Step)
    requires TableInv(s) && TimersInv(s) && CleanInv(s)
    ensures CleanInv(Next(s, step))
  {
    hide TableInv, Next, NobodyConnecting, SweptSoFar;
    var u := Next(s, step);
    NextMoves(s, step);
    if u.stopping && u.calls.clean {
      if s.stopping {
        NextSwept(s, step);
        forall f
          ensures Leaving(u, f)
        {
          NextLeaving(s, step, f);
        }
      } else {
        NewSessionClean(s, u);
      }
    }
  }

  lemma NewSessionClean(s: Server, u: Server)
    requires NobodyConnecting(s) && u.pc == Walking(s.table.Keys) && u.table == s.table && u.conns == s.conns
    ensures SweptSoFar(u) && forall f :: Leaving(u, f)
  {
  }

  lemma NextArmed(s: Server, step: Step)
    requires TimersInv(s) && CleanInv(s) && Armed(s)
    ensures Armed(Next(s, step))
  {
    hide StopOk, FreshFd, NobodyConnecting, Leaving, WithDeadline, WithScans;
    if OnConnection(step) {
      ConnectionFrame(s, step);
    } else if InFinalize(step) {
      FinalizeFrame(s, step);
    } else if Enabled(s, step) {
      match step
      case EndWalk => WithDeadlineOk(s.stop);
      case _ =>
    }
  }

  // ---------- Completion callbacks ----------

  /** The callback registered last for a session; its first registration may be an empty one. */
  function LastRegistered(regs: seq<Registration>, session: nat): Option<CallbackId> {
    if regs == [] then None
    else
      var r := regs[|regs| - 1];
      if r.session == session then r.cb else LastRegistered(regs[..|regs| - 1], session)
  }

  function FiredIn(fired: seq<Firing>, session: nat): seq<CallbackId> {
    if fired == [] then []
    else
      var x := fired[|fired| - 1];
      FiredIn(fired[..|fired| - 1], session) + if x.session == session then [x.cb] else []
  }

  ghost predicate IsOver(s: Server, session: nat) {
    session < s.calls.session || (session == s.calls.session && !s.stopping)
  }

  /** A session that is over has fired its last registered callback, once; one that is not, none. */
  ghost predicate SessionOk(s: Server, k: nat) {
    && (k > s.calls.session ==> LastRegistered(s.calls.registered, k) == None)
    && FiredIn(s.calls.fired, k) ==
       if IsOver(s, k) && LastRegistered(s.calls.registered, k).Some?
       then [LastRegistered(s.calls.registered, k).value] else []
  }

  ghost predicate SessionInv(s: Server) {
    && (forall k: nat :: SessionOk(s, k))
    && (s.stopping ==> s.calls.callback == LastRegistered(s.calls.registered, s.calls.session))
  }

  lemma SameSession(s: Server, u: Server)
    requires SessionInv(s)
    requires u.stopping == s.stopping && u.calls == s.calls
    ensures SessionInv(u)
  {
    forall k: nat
      ensures SessionOk(u, k)
    {
      assert SessionOk(s, k);
    }
  }

  lemma StopSession(s: Server, cb: Option<CallbackId>)
    requires SessionInv(s)
    ensures SessionInv(StopGracefully(s, cb))
  {
    var u := StopGracefully(s, cb);
    if u != s {
      assert u.calls.registered[..|u.calls.registered| - 1] == s.calls.registered;
      forall k: nat
        ensures SessionOk(u, k)
      {
        assert SessionOk(s, k);
      }
    }
  }

  lemma FinishedSession(s: Server)
    requires SessionInv(s) && s.stopping
    ensures SessionInv(Finished(s))
  {
    var u := Finished(s);
    if s.calls.callback.Some? {
      assert u.calls.fired[..|u.calls.fired| - 1] == s.calls.fired;
    }
    forall k: nat
      ensures SessionOk(u, k)
    {
      assert SessionOk(s, k);
    }
  }

  lemma MainTaskSession(s: Server)
    requires SessionInv(s) && Enabled(s, RunMainTask)
    ensures SessionInv(Next(s, RunMainTask))
  {
    hide SessionInv, StopGracefully;
    var s1 := s.(mainQueue := s.mainQueue[1..]);
    SameSession(s, s1);
    match s.mainQueue[0]
    case StopTask(cb) => StopSession(s1, cb);
    case RemoveTask(c) => SameSession(s, Next(s, RunMainTask));
  }

  lemma NextSession(s: Server, step: Step)
    requires SessionInv(s) && FlagsOk(s)
    ensures SessionInv(Next(s, step))
  {
    hide SessionInv, StopGracefully, FreshFd, WithDeadline, WithScans, RemoveConnection;
    if OnConnection(step) {
      ConnectionFrame(s, step);
      SameSession(s, Next(s, step));
    } else if InFinalize(step) {
      FinalizeFrame(s, step);
      SameSession(s, Next(s, step));
    } else if Enabled(s, step) {
      match step
      case RunMainTask => MainTaskSession(s);
      case StopCall(cb) => StopSession(s, cb);
      case EndFinalize => EndFinalizeSession(s);
      case _ => SameSession(s, Next(s, step));
    }
  }

  lemma EndFinalizeSession(s: Server)
    requires SessionInv(s) && s.stopping && s.pc.Forcing?
    ensures SessionInv(EndOfFinalize(s))
  {
    hide SessionInv, Finished;
    FinishedSession(s);
    SameSession(s, s.(pc := Free));
  }

  // ---------- All of it ----------

  ghost predicate Inv(s: Server) {
    TableInv(s) && Balanced(s) && TimersInv(s) && Armed(s) && CleanInv(s) && SessionInv(s)
  }

  lemma NewServerInv()
    ensures Inv(NEW_SERVER)
  {
  }

  lemma NextKeepsInv(s: Server, step: Step)
    requires Inv(s)
    ensures Inv(Next(s, step))
  {
    hide TableInv, Balanced, StopOk, Armed, CleanInv, SessionInv, Next;
    NextEvolves(s, step);
    NextBalanced(s, step);
    NextTimers(s, step);
    NextArmed(s, step);
    NextClean(s, step);
    NextSession(s, step);
  }

  lemma {:induction false} RunKeepsInv(s: Server, steps: seq<Step>)
    requires Inv(s)
    ensures Inv(Servers.Run(s, steps))
    decreases |steps|
  {
    hide Inv, Next;
    if steps != [] {
      NextKeepsInv(s, steps[0]);
      RunKeepsInv(Next(s, steps[0]), steps[1..]);
    }
  }
}
