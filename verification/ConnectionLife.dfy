/** The two views of a connection agree: what TcpServer keeps of one (`Life`) follows everything that
    TcpConnection does, functor by functor, close by close and callback by callback. */
module ConnectionLife {
  import opened Bytes
  import opened Connections
  import opened Servers

  // ---------- What the server machine lets happen to one connection ----------

  datatype LifeOp =
    | NextTask(drained: bool)
    | PeerCloses
    | CloseOn
    | ShutsDown(drained: bool)
    | ForceCloses
    | ShutDownRemotely
    | ForceClosedRemotely
    | PostDestroy

  predicate Idle(l: Life) {
    l.closing.NotClosing?
  }

  predicate StillOpen(l: Life) {
    Idle(l) && (l.state == Connected || l.state == Disconnecting)
  }

  /** With the guards of the server machine. */
  function LifeEffect(l: Life, op: LifeOp): Effect {
    match op
    case NextTask(drained) => if Idle(l) && l.queue != [] then TaskEffect(l, drained) else Effect(l, false)
    case PeerCloses => if StillOpen(l) then BeginClose(l) else Effect(l, false)
    case CloseOn => CloseFurther(l)
    case ShutsDown(drained) =>
      if Idle(l) && l.state == Connected then InlineShutdownEffect(l, drained) else Effect(l, false)
    case ForceCloses => if StillOpen(l) then ForceCloseNow(l) else Effect(l, false)
    case ShutDownRemotely => Effect(ShutdownRemotely(l), false)
    case ForceClosedRemotely => Effect(ForceCloseRemotely(l), false)
    case PostDestroy => Effect(Posted(l, DestroyTask), false)
  }

  /** They are steps of the server machine, except that DestroyTask is posted inside larger steps. */
  function StepOf(c: ConnId, op: LifeOp): Option<Step> {
    match op
    case NextTask(drained) => Some(RunConnTask(c, drained))
    case PeerCloses => Some(PeerClose(c))
    case CloseOn => Some(GoOnClosing(c))
    case ShutsDown(drained) => Some(InlineShutdown(c, drained))
    case ForceCloses => Some(InlineForceClose(c))
    case ShutDownRemotely => Some(RemoteShutdownCall(c))
    case ForceClosedRemotely => Some(RemoteForceCloseCall(c))
    case PostDestroy => None
  }

  lemma EffectIsStep(s: Server, c: ConnId, op: LifeOp)
    requires c in s.conns && StepOf(c, op).Some?
    ensures Next(s, StepOf(c, op).value) == Take(s, c, LifeEffect(s.conns[c], op))
  {
    assert s.conns[c := s.conns[c]] == s.conns;
  }

  /** After some of them, and with that many close callbacks made. */
  datatype Lived = Lived(life: Life, removals: nat)

  function LifeRun(l: Life, ops: seq<LifeOp>): Lived
    decreases |ops|
  {
    if ops == [] then Lived(l, 0)
    else
      var e := LifeEffect(l, ops[0]);
      var rest := LifeRun(e.life, ops[1..]);
      rest.(removals := rest.removals + if e.removal then 1 else 0)
  }

  lemma {:induction false} LifeRunConcat(l: Life, a: seq<LifeOp>, b: seq<LifeOp>)
    ensures var r := LifeRun(l, a);
            var q := LifeRun(r.life, b);
            LifeRun(l, a + b) == Lived(q.life, r.removals + q.removals)
    decreases |a|
  {
    if a == [] {
      assert a + b == b;
    } else {
      assert (a + b)[0] == a[0] && (a + b)[1..] == a[1..] + b;
      LifeRunConcat(LifeEffect(l, a[0]).life, a[1..], b);
    }
  }

  // ---------- The relation ----------

  function WithoutSends(queue: seq<Task>): seq<Task> {
    if queue == [] then []
    else (if queue[0].SendTask? then [] else [queue[0]]) + WithoutSends(queue[1..])
  }

  lemma {:induction false} WithoutSendsConcat(a: seq<Task>, task: Task)
    ensures WithoutSends(a + [task]) == WithoutSends(a) + if task.SendTask? then [] else [task]
  {
    var last := if task.SendTask? then [] else [task];
    if a == [] {
      assert a + [task] == [task] && [task][1..] == [];
      assert last + [] == [] + last;
    } else {
      var head := if a[0].SendTask? then [] else [a[0]];
      assert (a + [task])[0] == a[0] && (a + [task])[1..] == a[1..] + [task];
      WithoutSendsConcat(a[1..], task);
      assert head + (WithoutSends(a[1..]) + last) == (head + WithoutSends(a[1..])) + last;
    }
  }

  /** The server's view of a connection between two steps of its loop. */
  ghost predicate Mirrors(c: Conn, l: Life) {
    && l.state == c.state && l.queue == WithoutSends(c.queue) && Idle(l)
    && l.key >= 0 && l.fd == if c.open then l.key else INVALID_FD
  }

  /** `ops` take the server's view from `c` to `d`, with the close callbacks made in between. */
  ghost predicate Follows(c: Conn, d: Conn, l: Life, ops: seq<LifeOp>) {
    && Mirrors(d, LifeRun(l, ops).life)
    && d.closeCalls == c.closeCalls + LifeRun(l, ops).removals
  }

  /** States that stand for each other as far as the server can see. */
  ghost predicate SameLife(c: Conn, d: Conn) {
    d.state == c.state && d.queue == c.queue && d.open == c.open && d.closeCalls == c.closeCalls
  }

  lemma FollowsThen(c: Conn, d: Conn, e: Conn, l: Life, a: seq<LifeOp>, b: seq<LifeOp>)
    requires Follows(c, d, l, a) && Follows(d, e, LifeRun(l, a).life, b)
    ensures Follows(c, e, l, a + b)
  {
    LifeRunConcat(l, a, b);
  }

  // ---------- Closing ----------

  lemma RunSingle(l: Life, op: LifeOp)
    ensures LifeRun(l, [op]) == Lived(LifeEffect(l, op).life, if LifeEffect(l, op).removal then 1 else 0)
  {
    assert [op][1..] == [];
  }

  lemma RunTwo(l: Life, a: LifeOp, b: LifeOp)
    ensures LifeRun(l, [a, b]) == var e := LifeEffect(l, a); var f := LifeEffect(e.life, b);
                                  Lived(f.life, (if e.removal then 1 else 0) + (if f.removal then 1 else 0))
  {
    hide LifeRun, LifeEffect;
    assert [a, b] == [a] + [b];
    RunSingle(l, a);
    RunSingle(LifeEffect(l, a).life, b);
    LifeRunConcat(l, [a], [b]);
  }

  /** The rest of a close that has begun. */
  lemma CloseEnds(l: Life) returns (ops: seq<LifeOp>)
    requires l.closing.ToClose? && l.state == Disconnected
    ensures var r := LifeRun(l, ops);
            && r.life == l.(fd := INVALID_FD, closing := NotClosing)
            && r.removals == if l.closing.callback then 1 else 0
  {
    RunTwo(l, CloseOn, CloseOn);
    ops := [CloseOn, CloseOn];
    if l.closing.callback {
      RunSingle(LifeRun(l, ops).life, CloseOn);
      LifeRunConcat(l, ops, [CloseOn]);
      ops := ops + [CloseOn];
    }
  }

  /** An operation that begins a close, or changes nothing more than the state says. */
  lemma ThenClose(l: Life, op: LifeOp) returns (ops: seq<LifeOp>)
    requires var m := LifeEffect(l, op).life; m.closing.ToClose? && m.state == Disconnected
    ensures var e := LifeEffect(l, op);
            var r := LifeRun(l, ops);
            && r.life == e.life.(fd := INVALID_FD, closing := NotClosing)
            && r.removals == (if e.removal then 1 else 0) + (if e.life.closing.callback then 1 else 0)
  {
    var rest := CloseEnds(LifeEffect(l, op).life);
    ops := [op] + rest;
    assert ops[1..] == rest;
  }

  lemma HandleCloseFollows(c: Conn, l: Life) returns (ops: seq<LifeOp>)
    requires Mirrors(c, l) && c.state != Connecting
    ensures Follows(c, HandleClose(c), l, ops)
  {
    if c.state == Disconnected {
      ops := [];
    } else {
      ops := ThenClose(l, PeerCloses);
    }
  }

  lemma InlineShutdownFollows(c: Conn, l: Life) returns (ops: seq<LifeOp>)
    requires Mirrors(c, l)
    ensures Follows(c, CallbackStep(c, CbShutdown), l, ops)
  {
    if c.state != Connected {
      ops := [];
    } else if c.output != [] {
      RunSingle(l, ShutsDown(false));
      ops := [ShutsDown(false)];
    } else {
      ops := ThenClose(l, ShutsDown(true));
    }
  }

  lemma InlineForceCloseFollows(c: Conn, l: Life) returns (ops: seq<LifeOp>)
    requires Mirrors(c, l)
    ensures Follows(c, CallbackStep(c, CbForceClose), l, ops)
  {
    if c.state == Connected || c.state == Disconnecting {
      ops := ThenClose(l, ForceCloses);
    } else {
      ops := [];
    }
  }

  // ---------- Calls of other threads ----------

  lemma RemoteFollows(c: Conn, l: Life, op: RemoteOp) returns (ops: seq<LifeOp>)
    requires Mirrors(c, l)
    ensures Follows(c, CallRemotely(c, op), l, ops)
  {
    match op
    case RemoteSend(data) =>
      WithoutSendsConcat(c.queue, SendTask(data));
      ops := [];
    case RemoteShutdown =>
      WithoutSendsConcat(c.queue, ShutdownTask);
      RunSingle(l, ShutDownRemotely);
      ops := [ShutDownRemotely];
    case RemoteForceClose =>
      WithoutSendsConcat(c.queue, ForceCloseTask);
      RunSingle(l, ForceClosedRemotely);
      ops := [ForceClosedRemotely];
    case RemoteDestroy =>
      WithoutSendsConcat(c.queue, DestroyTask);
      RunSingle(l, PostDestroy);
      ops := [PostDestroy];
  }

  lemma {:induction false} RemoteAllFollows(c: Conn, l: Life, calls: seq<RemoteOp>) returns (ops: seq<LifeOp>)
    requires Mirrors(c, l)
    ensures Follows(c, RemoteAll(c, calls), l, ops)
    decreases |calls|
  {
    if calls == [] {
      ops := [];
    } else {
      hide CallRemotely, LifeRun;
      var d := CallRemotely(c, calls[0]);
      ops := RemoteFollows(c, l, calls[0]);
      var rest := RemoteAllFollows(d, LifeRun(l, ops).life, calls[1..]);
      FollowsThen(c, d, RemoteAll(c, calls), l, ops, rest);
      ops := ops + rest;
    }
  }

  // ---------- Sends ----------

  lemma CallbackStepFollows(c: Conn, l: Life, op: CallbackOp) returns (ops: seq<LifeOp>)
    requires Mirrors(c, l)
    ensures Follows(c, CallbackStep(c, op), l, ops)
  {
    hide LifeRun, CallRemotely;
    match op
    case CbSend(data, meanwhile) =>
      if c.state == Connected {
        ops := RemoteAllFollows(c, l, meanwhile);
      } else {
        ops := NothingFollows(c, l);
      }
    case CbShutdown => ops := InlineShutdownFollows(c, l);
    case CbForceClose => ops := InlineForceCloseFollows(c, l);
    case CbMeanwhile(call) => ops := RemoteFollows(c, l, call);
  }

  lemma NothingFollows(c: Conn, l: Life) returns (ops: seq<LifeOp>)
    requires Mirrors(c, l)
    ensures Follows(c, c, l, ops)
  {
    ops := [];
  }

  lemma {:induction false} CallbackFollows(c: Conn, l: Life, calls: seq<CallbackOp>) returns (ops: seq<LifeOp>)
    requires Mirrors(c, l)
    ensures Follows(c, RunCallback(c, calls), l, ops)
    decreases |calls|
  {
    hide LifeRun, CallbackStep;
    if calls == [] {
      ops := NothingFollows(c, l);
    } else {
      var d := CallbackStep(c, calls[0]);
      ops := CallbackStepFollows(c, l, calls[0]);
      var rest := CallbackFollows(d, LifeRun(l, ops).life, calls[1..]);
      FollowsThen(c, d, RunCallback(c, calls), l, ops, rest);
      ops := ops + rest;
    }
  }

  lemma SendFollows(c: Conn, l: Life, data: Data, meanwhile: seq<RemoteOp>, cb: seq<CallbackOp>)
    returns (ops: seq<LifeOp>)
    requires Mirrors(c, l)
    ensures Follows(c, SendInLoop(c, data, meanwhile, cb), l, ops)
  {
    hide LifeRun, RemoteAll, RunCallback;
    if c.state != Connected {
      ops := NothingFollows(c, l);
    } else {
      ops := RemoteAllFollows(c, l, meanwhile);
      var d := Queued(RemoteAll(c, meanwhile), data);
      assert Follows(c, d, l, ops);
      if c.watched && Crosses(c, data) {
        var e := d.(highWaterCalls := c.highWaterCalls + 1);
        assert Follows(c, e, l, ops);
        var rest := CallbackFollows(e, LifeRun(l, ops).life, cb);
        FollowsThen(c, e, RunCallback(e, cb), l, ops, rest);
        ops := ops + rest;
      }
    }
  }

  // ---------- Functors and events ----------

  lemma TaskFollows(c: Conn, l: Life, meanwhile: seq<RemoteOp>, cb: seq<CallbackOp>) returns (ops: seq<LifeOp>)
    requires Mirrors(c, l) && c.queue != []
    ensures Follows(c, RunNext(c, meanwhile, cb), l, ops)
  {
    if c.queue[0].SendTask? {
      hide LifeRun, SendInLoop;
      var c1 := c.(queue := c.queue[1..]);
      assert Mirrors(c1, l);
      ops := SendFollows(c1, l, c.queue[0].data, meanwhile, cb);
    } else {
      ops := PlainTaskFollows(c, l, meanwhile, cb);
    }
  }

  /** What an effect comes to once a close that it begins has ended. */
  function Settled(e: Effect): Lived {
    var n := if e.removal then 1 else 0;
    if e.life.closing.ToClose?
    then Lived(e.life.(fd := INVALID_FD, closing := NotClosing), n + if e.life.closing.callback then 1 else 0)
    else Lived(e.life, n)
  }

  lemma TaskSettles(l: Life, drained: bool) returns (ops: seq<LifeOp>)
    requires Idle(l) && l.queue != []
    ensures LifeRun(l, ops) == Settled(TaskEffect(l, drained))
  {
    RunSingle(l, NextTask(drained));
    ops := [NextTask(drained)];
    if TaskEffect(l, drained).life.closing.ToClose? {
      ops := ThenClose(l, NextTask(drained));
    }
  }

  /** A functor other than a send closes the connection, */
  predicate TaskCloses(task: Task, state: ConnState, drained: bool) {
    match task
    case ShutdownTask => drained && state != Disconnected
    case ForceCloseTask => state == Connected || state == Disconnecting
    case DestroyTask => state == Connected || state == Disconnecting
    case Establish => false
    case SendTask(_) => false
  }

  /** with the close callback unless the server asked for it. */
  function TaskCalls(task: Task, state: ConnState, drained: bool): nat {
    if TaskCloses(task, state, drained) && !task.DestroyTask? then 1 else 0
  }

  function StateAfter(task: Task, state: ConnState, drained: bool): ConnState {
    if task.Establish? then Connected else if TaskCloses(task, state, drained) then Disconnected else state
  }

  lemma TaskOnConn(c: Conn, meanwhile: seq<RemoteOp>, cb: seq<CallbackOp>)
    requires c.queue != [] && !c.queue[0].SendTask?
    ensures var d, task, drained := RunNext(c, meanwhile, cb), c.queue[0], c.output == [];
            && d.queue == c.queue[1..] && d.state == StateAfter(task, c.state, drained)
            && d.closeCalls == c.closeCalls + TaskCalls(task, c.state, drained)
            && d.open == (c.open && !TaskCloses(task, c.state, drained))
  {
    hide SendInLoop, HandleClose, ForceCloseInLoop, ConnectDestroyed, ShutdownInLoop, ConnectEstablished;
    CloseLife(c.(queue := c.queue[1..]));
    match c.queue[0]
    case ShutdownTask =>
    case ForceCloseTask =>
    case DestroyTask =>
    case Establish =>
  }

  /** The connection `d` is `c` after a close, with or without the callback. */
  ghost predicate ClosedOf(c: Conn, d: Conn, calls: nat) {
    d.queue == c.queue && d.state == Disconnected && !d.open && d.closeCalls == c.closeCalls + calls
  }

  lemma CloseLife(c: Conn)
    ensures if c.state == Disconnected then SameLife(c, HandleClose(c)) else ClosedOf(c, HandleClose(c), 1)
    ensures if c.output != [] || c.state == Disconnected then SameLife(c, ShutdownInLoop(c))
            else ClosedOf(c, ShutdownInLoop(c), 1)
    ensures if c.state == Connected || c.state == Disconnecting
            then ClosedOf(c, ForceCloseInLoop(c), 1) && ClosedOf(c, ConnectDestroyed(c), 0)
            else SameLife(c, ForceCloseInLoop(c)) && SameLife(c, ConnectDestroyed(c))
    ensures SameLife(c.(state := Connected), ConnectEstablished(c))
  {
  }

  lemma TaskOnLife(l: Life, drained: bool)
    requires Idle(l) && l.queue != [] && !l.queue[0].SendTask?
    ensures var r, task := Settled(TaskEffect(l, drained)), l.queue[0];
            && r.removals == TaskCalls(task, l.state, drained)
            && r.life == l.(queue := l.queue[1..], state := StateAfter(task, l.state, drained),
                            fd := if TaskCloses(task, l.state, drained) then INVALID_FD else l.fd)
  {
  }

  lemma PlainTaskFollows(c: Conn, l: Life, meanwhile: seq<RemoteOp>, cb: seq<CallbackOp>) returns (ops: seq<LifeOp>)
    requires Mirrors(c, l) && c.queue != [] && !c.queue[0].SendTask?
    ensures Follows(c, RunNext(c, meanwhile, cb), l, ops)
  {
    assert l.queue == [c.queue[0]] + WithoutSends(c.queue[1..]);
    assert l.queue[1..] == WithoutSends(c.queue[1..]);
    hide LifeRun, WithoutSends, LifeEffect, RunNext, TaskEffect, Settled, StateAfter, TaskCalls, TaskCloses;
    TaskOnConn(c, meanwhile, cb);
    TaskOnLife(l, c.output == []);
    ops := TaskSettles(l, c.output == []);
  }

  lemma WriteFollows(c: Conn, l: Life, w: WriteOutcome, meanwhile: seq<RemoteOp>) returns (ops: seq<LifeOp>)
    requires Mirrors(c, l) && Inv(c)
    ensures Follows(c, HandleWrite(c, w, meanwhile), l, ops)
  {
    hide LifeRun, HandleClose;
    if c.state != Connected {
      ops := NothingFollows(c, l);
    } else {
      ops := RemoteAllFollows(c, l, meanwhile);
      RemoteKeeps(c, meanwhile);
      var d := RemoteAll(c, meanwhile);
      var e, closes := WriteOut(d, w), WriteCloses(d, w);
      WriteOutLife(d, w);
      if closes {
        var rest := HandleCloseFollows(d, LifeRun(l, ops).life);
        FollowsThen(c, d, e, l, ops, rest);
        ops := ops + rest;
      }
    }
  }

  predicate WriteCloses(c: Conn, w: WriteOutcome) {
    || c.output == [] || w.WriteFailed? || (w.Wrote? && w.n == 0)
    || (w.Wrote? && w.n >= |c.output| && c.state == Disconnecting)
  }

  lemma WriteOutLife(c: Conn, w: WriteOutcome)
    ensures SameLife(if WriteCloses(c, w) then HandleClose(c) else c, WriteOut(c, w))
  {
    hide AfterWrite, HandleClose;
    if c.output != [] && w.Wrote? && w.n > 0 {
      AfterWriteLife(c, Min(w.n, |c.output|));
    }
  }

  lemma AfterWriteLife(c: Conn, k: nat)
    requires 0 < k <= |c.output|
    ensures SameLife(if k == |c.output| && c.state == Disconnecting then HandleClose(c) else c, AfterWrite(c, k))
  {
  }

  lemma CallFollows(c: Conn, l: Life, call: UserOp) returns (ops: seq<LifeOp>)
    requires Mirrors(c, l)
    ensures Follows(c, CallInLoop(c, call), l, ops)
  {
    hide LifeRun, SendInLoop, CallbackStep;
    match call
    case Send(data, meanwhile, cb) => ops := SendFollows(c, l, data, meanwhile, cb);
    case Shutdown => ops := InlineShutdownFollows(c, l);
    case ForceClose => ops := InlineForceCloseFollows(c, l);
  }

  /** Whatever TcpConnection does in one step, the server machine can do to its view of it, with the
      same close callbacks. */
  lemma StepFollows(c: Conn, l: Life, a: Action) returns (ops: seq<LifeOp>)
    requires Mirrors(c, l) && Inv(c)
    ensures Follows(c, Act(c, a), l, ops)
  {
    ops := NothingFollows(c, l);
    assert c.added || c.reading ==> c.state != Connecting;
    hide LifeRun, HandleClose, HandleWrite, RunNext, CallInLoop, CallRemotely, Inv;
    match a
    case OnClose =>
      if c.added {
        ops := HandleCloseFollows(c, l);
      }
    case OnRead(r) =>
      if c.reading && (r.ReadFailed? || r == Received([])) {
        ops := HandleCloseFollows(c, l);
      }
    case OnWrite(w, meanwhile) =>
      if c.writing {
        ops := WriteFollows(c, l, w, meanwhile);
      }
    case Call(call) => ops := CallFollows(c, l, call);
    case Remote(op) => ops := RemoteFollows(c, l, op);
    case RunTask(meanwhile, cb) =>
      if c.queue != [] {
        ops := TaskFollows(c, l, meanwhile, cb);
      }
  }

  lemma {:induction false} RunFollows(c: Conn, l: Life, actions: seq<Action>) returns (ops: seq<LifeOp>)
    requires Mirrors(c, l) && Connections.Inv(c)
    ensures Follows(c, Connections.Run(c, actions), l, ops)
    decreases |actions|
  {
    hide LifeRun, Act, Connections.Inv;
    if actions == [] {
      ops := NothingFollows(c, l);
    } else {
      var d := Act(c, actions[0]);
      ops := StepFollows(c, l, actions[0]);
      ActKeepsInv(c, actions[0]);
      var rest := RunFollows(d, LifeRun(l, ops).life, actions[1..]);
      FollowsThen(c, d, Connections.Run(c, actions), l, ops, rest);
      ops := ops + rest;
    }
  }

  /** So every run of a connection, from the moment TcpServer makes it, is one that the server machine
      allows its view of it: same state, same functors apart from sends, socket closed or not, and one
      removal queued for each close callback. */
  lemma ConnectionRefinesLife(mark: nat, watched: bool, fd: Fd, actions: seq<Action>) returns (ops: seq<LifeOp>)
    requires fd >= 0
    ensures var c := Connections.Run(NewConn(mark, watched), actions);
            var r := LifeRun(Life(Connecting, fd, fd, [Establish], NotClosing), ops);
            Mirrors(c, r.life) && r.removals == c.closeCalls
  {
    var l := Life(Connecting, fd, fd, [Establish], NotClosing);
    assert WithoutSends([Establish]) == [Establish] + WithoutSends([]);
    ops := RunFollows(NewConn(mark, watched), l, actions);
  }
}
