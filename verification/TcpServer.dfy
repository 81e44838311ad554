/** TcpServer as an object. Its main-loop operations, with their loops over the table, are proved to
    be runs of the server machine in which only the main thread steps (`OwnSteps`). */
module TcpServers {
  import opened Bytes
  import opened Connections
  import opened Servers
  import ServerRuns

  predicate IsLive(table: map<Fd, ConnId>, conns: map<ConnId, Life>, f: Fd) {
    f in table && table[f] in conns && conns[table[f]].state == Connected
  }

  /** EventLoop::Cancel for a timer id that may be 0. */
  method CancelTimer(timers: map<TimerId, TimerKind>, id: TimerId) returns (live: map<TimerId, TimerKind>)
    requires 0 !in timers
    ensures live == timers - {id} && 0 !in live
  {
    live := timers;
    if id != 0 {
      live := live - {id};
    }
  }

  /** The sweep of `s` has been through all fds but `todo`. */
  ghost predicate SweptTo(s: Server, todo: set<Fd>, table: map<Fd, ConnId>, stale: set<ConnId>) {
    && table == (map f | f in s.table && (f in todo || IsLive(s.table, s.conns, f)) :: s.table[f])
    && stale == (set f | f in s.table && f !in todo && !IsLive(s.table, s.conns, f) :: s.table[f])
  }

  lemma SweptToEnd(s: Server)
    ensures forall table, stale :: SweptTo(s, {}, table, stale) ==>
              && table == (map f | f in s.table && IsLive(s.table, s.conns, f) :: s.table[f])
              && stale == (set f | f in s.table && !IsLive(s.table, s.conns, f) :: s.table[f])
  {
  }

  lemma SweptOneMore(s: Server, t: Server, f: Fd)
    requires t.pc.Sweeping? && t.conns == s.conns && SweptTo(s, t.pc.fds, t.table, t.pc.stale)
    requires f in t.pc.fds && f in t.table
    ensures var u := SweepEntry(t, f); SweptTo(s, u.pc.fds, u.table, u.pc.stale)
  {
  }

  /** ConnectDestroyed has been queued for all of `stale` but `todo`. */
  ghost predicate DestroyedTo(s: Server, stale: set<ConnId>, todo: set<ConnId>, conns: map<ConnId, Life>) {
    conns == map c | c in s.conns :: if c in stale && c !in todo then Posted(s.conns[c], DestroyTask) else s.conns[c]
  }

  lemma DestroyedAll(s: Server, stale: set<ConnId>)
    ensures forall conns :: DestroyedTo(s, stale, {}, conns) ==>
              conns == map c | c in s.conns :: if c in stale then Posted(s.conns[c], DestroyTask) else s.conns[c]
  {
  }

  lemma DestroyedOneMore(s: Server, stale: set<ConnId>, todo: set<ConnId>, conns: map<ConnId, Life>, c: ConnId)
    requires DestroyedTo(s, stale, todo, conns) && c in todo && c in stale && c in conns
    ensures DestroyedTo(s, stale, todo - {c}, conns[c := Posted(conns[c], DestroyTask)])
  {
  }

  lemma SweepRunThen(s: Server, walk: seq<Step>, f: Fd)
    requires var t := Servers.Run(s, walk); t.pc.Sweeping? && f in t.pc.fds && f in t.table
    ensures Servers.Run(s, walk + [SweepOne(f)]) == SweepEntry(Servers.Run(s, walk), f)
  {
    ServerRuns.RunThen(s, walk, SweepOne(f));
  }

  lemma DestroyRunThen(s: Server, walk: seq<Step>, c: ConnId)
    requires var t := Servers.Run(s, walk); t.pc.Destroying? && c in t.pc.conns && c in t.conns
    ensures Servers.Run(s, walk + [DestroyOne(c)]) == DestroyStale(Servers.Run(s, walk), c)
  {
    ServerRuns.RunThen(s, walk, DestroyOne(c));
  }

  /** Steps of the main thread inside StopGracefully and FinalizeGracefulStop. */
  predicate OwnStep(step: Step) {
    || step.WalkOne? || step.EndWalk? || step.SweepOne? || step.EndSweep? || step.DestroyOne? || step.EndDestroy?
    || step.ForceOne? || step.EndFinalize?
  }

  ghost predicate OwnSteps(walk: seq<Step>) {
    forall i :: 0 <= i < |walk| ==> OwnStep(walk[i])
  }

  lemma OwnStepsMore(walk: seq<Step>, step: Step)
    requires OwnSteps(walk) && OwnStep(step)
    ensures OwnSteps(walk + [step])
  {
  }

  function EntryCall(l: Life, force: bool): Life {
    if force then ForceCloseRemotely(l) else ShutdownRemotely(l)
  }

  function EntryStep(f: Fd, force: bool): Step {
    if force then ForceOne(f) else WalkOne(f)
  }

  /** The loop that calls Shutdown or ForceClose has been through all entries of `s` but `todo`: their
      connections have had the call once, and no other has changed. */
  ghost predicate CalledTo(s: Server, todo: set<Fd>, conns: map<ConnId, Life>, force: bool) {
    && conns.Keys == s.conns.Keys
    && (forall f :: f in s.table && s.table[f] in s.conns ==>
          conns[s.table[f]] == if f in todo then s.conns[s.table[f]] else EntryCall(s.conns[s.table[f]], force))
    && (forall c :: c in s.conns && c !in s.table.Values ==> conns[c] == s.conns[c])
  }

  /** One step for each entry outside `todo`, and nothing else. */
  ghost predicate OneStepEach(walk: seq<Step>, fds: set<Fd>, todo: set<Fd>, force: bool) {
    && |walk| + |todo| == |fds|
    && (forall f :: f in fds && f !in todo ==> EntryStep(f, force) in walk)
    && (forall i :: 0 <= i < |walk| ==> exists f :: f in fds && walk[i] == EntryStep(f, force))
  }

  lemma CalledOneMore(s: Server, todo: set<Fd>, conns: map<ConnId, Life>, force: bool, f: Fd)
    requires forall g :: g in s.table ==> s.table[g] in s.conns && s.conns[s.table[g]].key == g
    requires CalledTo(s, todo, conns, force) && f in todo && f in s.table
    ensures CalledTo(s, todo - {f}, conns[s.table[f] := EntryCall(conns[s.table[f]], force)], force)
  {
    hide EntryCall;
    assert s.table[f] in s.table.Values;
  }

  lemma CalledNone(s: Server, force: bool)
    ensures CalledTo(s, s.table.Keys, s.conns, force) && OneStepEach([], s.table.Keys, s.table.Keys, force)
  {
  }

  lemma AreOwnSteps(walk: seq<Step>, fds: set<Fd>, force: bool)
    requires OneStepEach(walk, fds, {}, force)
    ensures OwnSteps(walk)
  {
  }

  lemma OneStepMore(walk: seq<Step>, fds: set<Fd>, todo: set<Fd>, force: bool, f: Fd)
    requires OneStepEach(walk, fds, todo, force) && f in todo && f in fds
    ensures OneStepEach(walk + [EntryStep(f, force)], fds, todo - {f}, force)
  {
    var more := walk + [EntryStep(f, force)];
    assert more[|walk|] == EntryStep(f, force);
    forall g | g in fds && g !in todo - {f}
      ensures EntryStep(g, force) in more
    {
      assert g != f ==> EntryStep(g, force) in walk;
    }
  }

  /** The walk, or the loop of forced closes, has got from `s` to `u`. */
  ghost predicate CallLoop(s: Server, walk: seq<Step>, u: Server, todo: set<Fd>, force: bool) {
    && (forall f :: f in s.table ==> s.table[f] in s.conns && s.conns[s.table[f]].key == f)
    && u == Servers.Run(s, walk) && u.table == s.table && todo <= s.table.Keys
    && u.pc == (if force then Forcing(todo, true) else Walking(todo))
    && OneStepEach(walk, s.table.Keys, todo, force) && CalledTo(s, todo, u.conns, force)
  }

  function EntryTurn(u: Server, f: Fd, force: bool): Server
    requires f in u.table && u.table[f] in u.conns && if force then u.pc.Forcing? else u.pc.Walking?
  {
    if force then ForceEntry(u, f) else WalkEntry(u, f)
  }

  lemma EntryTurnIsStep(u: Server, todo: set<Fd>, force: bool, f: Fd)
    requires u.pc == (if force then Forcing(todo, true) else Walking(todo))
    requires f in todo && f in u.table && u.table[f] in u.conns
    ensures var v := EntryTurn(u, f, force);
            && Next(u, EntryStep(f, force)) == v && v.table == u.table
            && v.pc == (if force then Forcing(todo - {f}, true) else Walking(todo - {f}))
            && v.conns == u.conns[u.table[f] := EntryCall(u.conns[u.table[f]], force)]
  {
    hide ForceCloseRemotely, ShutdownRemotely;
  }

  lemma CallLoopTurn(s: Server, walk: seq<Step>, u: Server, todo: set<Fd>, force: bool, f: Fd)
    requires CallLoop(s, walk, u, todo, force) && f in todo
    ensures f in u.table && u.table[f] in u.conns
    ensures CallLoop(s, walk + [EntryStep(f, force)], EntryTurn(u, f, force), todo - {f}, force)
  {
    assert u.table[f] in u.conns;
    CalledOneMore(s, todo, u.conns, force, f);
    OneStepMore(walk, s.table.Keys, todo, force, f);
    EntryTurnIsStep(u, todo, force, f);
    hide CalledTo, OneStepEach, Next, EntryTurn, EntryStep, EntryCall;
    ServerRuns.RunThen(s, walk, EntryStep(f, force));
  }

  class TcpServer {
    var connections: map<Fd, ConnId>
    var conns: map<ConnId, Life>      // the connection objects, by identity
    var nextConn: ConnId
    var started: bool
    var stopping: bool
    var mainQueue: seq<MainTask>
    var stop: StopTimers              // the four timer ids, and the main loop's live timers
    var counts: Counts
    var calls: Calls

    ghost function ViewAt(pc: MainPc): Server
      reads this
    {
      Server(connections, conns, nextConn, started, stopping, mainQueue, pc, stop, counts, calls)
    }

    ghost function View(): Server
      reads this
    {
      ViewAt(Free)
    }

    /** Every entry is a known connection that was accepted with that fd; ids are not used twice. */
    ghost predicate Valid()
      reads this
    {
      && (forall f :: f in connections ==> connections[f] in conns && conns[connections[f]].key == f)
      && (forall c :: c in conns ==> c < nextConn)
      && 0 !in stop.timers && stop.nextTimer > 0
    }

    constructor ()
      ensures Valid() && View() == NEW_SERVER
    {
      connections, conns, nextConn, started, stopping := map[], map[], 0, false, false;
      mainQueue, stop := [], StopTimers(0, 0, 0, 0, map[], 1);
      counts, calls := Counts(0, 0, 0, 0), Calls(None, 0, true, [], []);
    }

    method HandleNewConnection(fd: Fd)
      requires Valid()
      modifies this`connections, this`conns, this`nextConn, this`counts
      ensures Valid() && View() == Servers.HandleNewConnection(old(View()), fd)
    {
      if stopping {
        return;
      }
      var conn := nextConn;
      nextConn := nextConn + 1;
      conns := conns[conn := Life(Connecting, fd, fd, [Establish], NotClosing)];
      var lost := if fd in connections then 1 else 0;
      counts := counts.(total := counts.total + 1, overwritten := counts.overwritten + lost);
      connections := connections[fd := conn];
    }

    /** The timer ids, and the main loop's timers, if they are configured. */
    method Start(idle: bool, metrics: bool)
      requires Valid()
      modifies this`started, this`stop
      ensures Valid() && View() == Next(old(View()), StartCall(idle, metrics))
    {
      if started {
        return;
      }
      started := true;
      if idle {
        stop := WithTimer(stop, IdleTimer).(idleId := stop.nextTimer);
      }
      if metrics {
        stop := WithTimer(stop, MetricsTimer).(metricsId := stop.nextTimer);
      }
    }

    /** The close callback, on the connection's loop. */
    method HandleRemoveConnection(c: ConnId)
      modifies this`mainQueue
      ensures View() == old(View()).(mainQueue := old(mainQueue) + [RemoveTask(c)])
    {
      mainQueue := mainQueue + [RemoveTask(c)];
    }

    /** StopGracefully on another thread. */
    method StopFromOtherThread(cb: Option<CallbackId>)
      modifies this`mainQueue
      ensures View() == Next(old(View()), RemoteStop(cb))
      ensures mainQueue == old(mainQueue) + [StopTask(cb)]
    {
      mainQueue := mainQueue + [StopTask(cb)];
    }

    /** FinalizeGracefulStop's iterate-and-erase loop, in whatever order the map is iterated: exactly the
        entries that are not connected leave, and are collected. */
    method SweepStale(force: bool, ghost s: Server) returns (stale: set<ConnId>, ghost walk: seq<Step>)
      requires Valid() && s == ViewAt(Sweeping(connections.Keys, {}, force))
      modifies this`connections, this`counts
      ensures Valid() && stale <= conns.Keys
      ensures ViewAt(Sweeping({}, stale, force)) == Servers.Run(s, walk) && OwnSteps(walk)
      ensures connections == map f | f in s.table && IsLive(s.table, s.conns, f) :: s.table[f]
      ensures stale == set f | f in s.table && !IsLive(s.table, s.conns, f) :: s.table[f]
    {
      stale, walk := {}, [];
      var todo := connections.Keys;
      assert SweptTo(s, todo, connections, stale);
      SweptToEnd(s);
      hide Next, SweptTo, SweepEntry;
      while todo != {}
        invariant Valid() && todo <= connections.Keys && todo <= s.table.Keys && stale <= conns.Keys
        invariant ViewAt(Sweeping(todo, stale, force)) == Servers.Run(s, walk) && OwnSteps(walk)
        invariant SweptTo(s, todo, connections, stale)
        decreases todo
      {
        if !exists g :: g in todo {
          assert false;
        }
        var f: Fd :| f in todo;
        SweepRunThen(s, walk, f);
        SweptOneMore(s, ViewAt(Sweeping(todo, stale, force)), f);
        stale := SweepOneEntry(f, todo, stale, force);
        todo := todo - {f};
        walk := walk + [SweepOne(f)];
      }
    }

    /** One turn of that loop. */
    method SweepOneEntry(f: Fd, ghost todo: set<Fd>, stale: set<ConnId>, ghost force: bool) returns (more: set<ConnId>)
      requires Valid() && f in connections
      modifies this`connections, this`counts
      ensures Valid()
      ensures ViewAt(Sweeping(todo - {f}, more, force)) == SweepEntry(old(ViewAt(Sweeping(todo, stale, force))), f)
      ensures more <= stale + conns.Keys && connections.Keys >= old(connections).Keys - {f}
    {
      more := stale;
      if conns[connections[f]].state != Connected {
        more := stale + {connections[f]};
        connections := connections - {f};
        counts := counts.(swept := counts.swept + 1);
      }
    }

    /** Each stale connection gets one ConnectDestroyed functor. */
    method DestroyEach(stale: set<ConnId>, force: bool, ghost s: Server) returns (ghost walk: seq<Step>)
      requires Valid() && s == ViewAt(Destroying(stale, force)) && stale <= conns.Keys
      modifies this`conns
      ensures Valid() && ViewAt(Destroying({}, force)) == Servers.Run(s, walk) && OwnSteps(walk)
      ensures conns == map c | c in s.conns :: if c in stale then Posted(s.conns[c], DestroyTask) else s.conns[c]
    {
      walk := [];
      var todo := stale;
      assert OwnSteps(walk) && DestroyedTo(s, stale, todo, conns);
      DestroyedAll(s, stale);
      hide Next, OwnSteps, DestroyedTo, DestroyStale, Valid;
      while todo != {}
        invariant Valid() && todo <= stale <= conns.Keys
        invariant ViewAt(Destroying(todo, force)) == Servers.Run(s, walk) && OwnSteps(walk)
        invariant DestroyedTo(s, stale, todo, conns)
        decreases todo
      {
        var c: ConnId :| c in todo;
        DestroyRunThen(s, walk, c);
        OwnStepsMore(walk, DestroyOne(c));
        DestroyedOneMore(s, stale, todo, conns, c);
        DestroyOneConnection(c, todo, force);
        todo := todo - {c};
        walk := walk + [DestroyOne(c)];
      }
    }

    method DestroyOneConnection(c: ConnId, ghost todo: set<ConnId>, ghost force: bool)
      requires Valid() && c in conns
      modifies this`conns
      ensures Valid() && conns == old(conns)[c := Posted(old(conns)[c], DestroyTask)]
      ensures ViewAt(Destroying(todo - {c}, force)) == DestroyStale(old(ViewAt(Destroying(todo, force))), c)
    {
      conns := conns[c := Posted(conns[c], DestroyTask)];
    }

    /** Each remaining connection is forced closed. */
    method ForceCloseEach(ghost s: Server) returns (ghost walk: seq<Step>)
      requires Valid() && s == ViewAt(Forcing(connections.Keys, true))
      modifies this`conns
      ensures Valid() && ViewAt(Forcing({}, true)) == Servers.Run(s, walk)
      ensures OneStepEach(walk, connections.Keys, {}, true) && CalledTo(s, {}, conns, true)
    {
      walk := [];
      var todo := connections.Keys;
      CalledNone(s, true);
      assert CallLoop(s, walk, ViewAt(Forcing(todo, true)), todo, true);
      while todo != {}
        invariant Valid() && todo <= connections.Keys && CallLoop(s, walk, ViewAt(Forcing(todo, true)), todo, true)
        decreases todo
      {
        hide CallLoop, Valid, ForceEntry, WalkEntry, Next;
        if !exists g :: g in todo {
          assert false;
        }
        var f: Fd :| f in todo;
        CallLoopTurn(s, walk, ViewAt(Forcing(todo, true)), todo, true, f);
        CallEntry(f, true, todo);
        todo := todo - {f};
        walk := walk + [ForceOne(f)];
      }
    }

    /** Shutdown or ForceClose on the connection of one entry. */
    method CallEntry(f: Fd, force: bool, ghost todo: set<Fd>)
      requires Valid() && f in connections && connections[f] in conns
      modifies this`conns
      ensures Valid()
      ensures force ==> ViewAt(Forcing(todo - {f}, true)) == ForceEntry(old(ViewAt(Forcing(todo, true))), f)
      ensures !force ==> ViewAt(Walking(todo - {f})) == WalkEntry(old(ViewAt(Walking(todo))), f)
    {
      var conn := connections[f];
      if force {
        conns := conns[conn := ForceCloseRemotely(conns[conn])];
      } else {
        conns := conns[conn := ShutdownRemotely(conns[conn])];
      }
    }

    /** Last part: cancel the timers, reset the flags, hand out the callback to be called. */
    method FinishStop() returns (call: Option<CallbackId>)
      requires Valid()
      modifies this`started, this`stopping, this`stop, this`calls
      ensures Valid() && call == old(calls.callback)
      ensures View() == Finished(old(View()))
    {
      var live := CancelTimer(stop.timers, stop.checkId);
      live := CancelTimer(live, stop.deadlineId);
      live := CancelTimer(live, stop.idleId);
      live := CancelTimer(live, stop.metricsId);
      assert live == stop.timers - {stop.checkId, stop.deadlineId, stop.idleId, stop.metricsId};
      stop := StopTimers(0, 0, 0, 0, live, stop.nextTimer);
      started, stopping := false, false;
      call := calls.callback;
      calls := Fired(calls);
    }

    /** The first two loops; `walk` runs to the state in which the second has ended. */
    method SweepAndDestroy(force: bool) returns (ghost walk: seq<Step>)
      requires Valid()
      modifies this`connections, this`conns, this`counts
      ensures Valid()
      ensures ViewAt(Destroying({}, force)) ==
              Servers.Run(old(ViewAt(Sweeping(connections.Keys, {}, force))), walk)
      ensures OwnSteps(walk)
      ensures connections == old(map f | f in connections && IsLive(connections, conns, f) :: connections[f])
    {
      ghost var s := ViewAt(Sweeping(connections.Keys, {}, force));
      var stale;
      stale, walk := SweepStale(force, s);
      ServerRuns.RunThen(s, walk, EndSweep);
      walk := walk + [EndSweep];
      ghost var t := ViewAt(Destroying(stale, force));
      assert Servers.Run(s, walk) == t;
      ghost var more := DestroyEach(stale, force, t);
      ServerRuns.RunSplit(s, walk, more);
      walk := walk + more;
    }

    method FinalizeGracefulStop(force: bool) returns (call: Option<CallbackId>, ghost walk: seq<Step>)
      requires Valid()
      modifies this
      ensures Valid() && View() == Servers.Run(Servers.FinalizeGracefulStop(old(View()), force), walk)
      ensures OwnSteps(walk) && (!old(stopping) ==> walk == [])
      ensures old(stopping) ==>
                connections == old(map f | f in connections && IsLive(connections, conns, f) :: connections[f])
      ensures old(stopping) ==> (stopping <==> force && connections != map[])
      ensures call == if old(stopping) && !stopping then old(calls.callback) else None
    {
      call, walk := None, [];
      if !stopping {
        return;
      }
      ghost var s := Servers.FinalizeGracefulStop(View(), force);
      assert s == ViewAt(Sweeping(connections.Keys, {}, force));
      walk := SweepAndDestroy(force);
      ServerRuns.RunThen(s, walk, EndDestroy);
      assert Next(Servers.Run(s, walk), EndDestroy)
          == ViewAt(Forcing(if force then connections.Keys else {}, force));
      hide Next;
      walk := walk + [EndDestroy];
      assert Servers.Run(s, walk) == ViewAt(Forcing(if force then connections.Keys else {}, force));
      ghost var more;
      call, more := ForceOrFinish(force);
      ServerRuns.RunSplit(s, walk, more);
      walk := walk + more;
    }

    /** The third loop and the end. */
    method ForceOrFinish(force: bool) returns (call: Option<CallbackId>, ghost walk: seq<Step>)
      requires Valid() && stopping
      modifies this`conns, this`started, this`stopping, this`stop, this`calls
      ensures Valid()
      ensures View() == Servers.Run(old(ViewAt(Forcing(if force then connections.Keys else {}, force))), walk)
      ensures OwnSteps(walk)
      ensures stopping <==> force && connections != map[]
      ensures call == if stopping then None else old(calls.callback)
    {
      ghost var t := ViewAt(Forcing(if force then connections.Keys else {}, force));
      call, walk := None, [];
      if force {
        walk := ForceCloseEach(t);
        AreOwnSteps(walk, connections.Keys, true);
      }
      assert Servers.Run(t, walk) == ViewAt(Forcing({}, force));
      ServerRuns.RunThen(t, walk, EndFinalize);
      walk := walk + [EndFinalize];
      if force && connections != map[] {
        return;
      }
      call := FinishStop();
    }

    /** The functor that HandleRemoveConnection queues on the main loop. */
    method RemoveConnection(c: ConnId) returns (call: Option<CallbackId>, ghost walk: seq<Step>)
      requires Valid() && c in conns
      modifies this
      ensures Valid() && View() == Servers.Run(Servers.RemoveConnection(old(View()), c), walk)
      ensures OwnSteps(walk) && (!old(stopping) || old(conns)[c].fd !in old(connections) ==> walk == [])
      ensures call == if old(stopping) && !stopping then old(calls.callback) else None
    {
      call, walk := None, [];
      var fd := conns[c].fd;
      if fd !in connections {
        return;
      }
      connections := connections - {fd};
      counts := counts.(closed := counts.closed + 1);
      conns := conns[c := Posted(conns[c], DestroyTask)];
      if stopping && connections == map[] {
        call, walk := FinalizeGracefulStop(false);
      }
    }

    /** StopGracefully on the main thread. With no step of another thread in between it is the run
        that calls stop, walks the table and ends the walk. */
    method StopGracefully(cb: Option<CallbackId>) returns (call: Option<CallbackId>, ghost walk: seq<Step>)
      requires Valid()
      modifies this
      ensures Valid() && View() == Servers.Run(Servers.StopGracefully(old(View()), cb), walk)
      ensures OwnSteps(walk) && (!old(started) || old(stopping) ==> walk == [])
      ensures call == if !old(started) then cb else if !old(stopping) && !stopping then cb else None
    {
      walk, call := [], None;
      if !started {
        return cb, [];
      }
      if stopping {
        if cb.Some? {
          calls := calls.(callback := cb, registered := calls.registered + [Registration(calls.session, cb)]);
        }
        return;
      }
      ghost var s := Servers.StopGracefully(View(), cb);
      BeginStop(cb);
      hide Next, OneStepEach, CalledTo, NobodyConnecting;
      walk := ShutdownEach(s);
      AreOwnSteps(walk, connections.Keys, false);
      ghost var more;
      call, more := FinishWalk();
      ServerRuns.RunSplit(s, walk, more);
      walk := walk + more;
    }

    /** After the walk: finish at once, or arm the check timer and the deadline. */
    method FinishWalk() returns (call: Option<CallbackId>, ghost walk: seq<Step>)
      requires Valid() && stopping
      modifies this
      ensures Valid() && View() == Servers.Run(old(ViewAt(Walking({}))), walk) && OwnSteps(walk)
      ensures call == if stopping then None else old(calls.callback)
    {
      ghost var t := ViewAt(Walking({}));
      call := None;
      ServerRuns.RunOne(t, EndWalk);
      walk := [EndWalk];
      if connections == map[] {
        ghost var more;
        call, more := FinalizeGracefulStop(false);
        ServerRuns.RunSplit(t, walk, more);
        walk := walk + more;
        return;
      }
      stop := WithDeadline(stop);
    }

    method BeginStop(cb: Option<CallbackId>)
      requires Valid() && started && !stopping
      modifies this`stopping, this`calls
      ensures Valid() && ViewAt(Walking(connections.Keys)) == Servers.StopGracefully(old(View()), cb)
    {
      var clean := forall f :: f in connections && connections[f] in conns ==>
        conns[connections[f]].state != Connecting;
      stopping := true;
      calls := calls.(callback := cb, session := calls.session + 1, clean := clean,
                      registered := calls.registered + [Registration(calls.session + 1, cb)]);
    }

    /** The walk over the table. */
    method ShutdownEach(ghost s: Server) returns (ghost walk: seq<Step>)
      requires Valid() && s == ViewAt(Walking(connections.Keys))
      modifies this`conns
      ensures Valid() && ViewAt(Walking({})) == Servers.Run(s, walk)
      ensures OneStepEach(walk, connections.Keys, {}, false) && CalledTo(s, {}, conns, false)
    {
      walk := [];
      var todo := connections.Keys;
      CalledNone(s, false);
      assert CallLoop(s, walk, ViewAt(Walking(todo)), todo, false);
      while todo != {}
        invariant Valid() && todo <= connections.Keys && CallLoop(s, walk, ViewAt(Walking(todo)), todo, false)
        decreases todo
      {
        hide CallLoop, Valid, ForceEntry, WalkEntry, Next;
        if !exists g :: g in todo {
          assert false;
        }
        var f: Fd :| f in todo;
        CallLoopTurn(s, walk, ViewAt(Walking(todo)), todo, false, f);
        CallEntry(f, false, todo);
        todo := todo - {f};
        walk := walk + [WalkOne(f)];
      }
    }
  }
}
