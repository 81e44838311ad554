/** TcpServer with at least one sub loop: the connection table keyed by fd, fd reuse, and graceful
    stop. The main loop, the sub loops and other threads take steps in any order. Of a connection
    only its lifecycle is kept; the queue holds the functors that its own loop will run. */
module Servers {
  import opened Bytes
  import opened Connections

  type Fd = int
  type ConnId = nat
  type TimerId = nat
  type CallbackId = nat

  const INVALID_FD: Fd := -1

  /** How far the connection's loop is with closing it. Socket::Close first gives the fd back to the
      kernel and then invalidates m_sockfd; `callback` says that the close callback comes after that. */
  datatype Closing = NotClosing | ToClose(callback: bool) | KernelClosed(callback: bool) | ToCallback

  /** `key` is the fd it was accepted with, `fd` what GetFd returns. */
  datatype Life = Life(state: ConnState, key: Fd, fd: Fd, queue: seq<Task>, closing: Closing)

  datatype MainTask = RemoveTask(conn: ConnId) | StopTask(cb: Option<CallbackId>)

  datatype TimerKind = CheckTimer | DeadlineTimer | IdleTimer | MetricsTimer

  /** The main thread is free, inside StopGracefully's walk over the table, or inside one of the three
      loops of FinalizeGracefulStop. */
  datatype MainPc =
    | Free
    | Walking(todo: set<Fd>)
    | Sweeping(fds: set<Fd>, stale: set<ConnId>, force: bool)
    | Destroying(conns: set<ConnId>, force: bool)
    | Forcing(rest: set<Fd>, force: bool)

  datatype Registration = Registration(session: nat, cb: Option<CallbackId>)

  datatype Firing = Firing(session: nat, cb: CallbackId)

  /** Timers on the main loop: their ids (0 is none), and which timers are live. */
  datatype StopTimers = StopTimers(checkId: TimerId, deadlineId: TimerId, idleId: TimerId, metricsId: TimerId,
                                   timers: map<TimerId, TimerKind>, nextTimer: TimerId)

  /** m_total_connections and m_closed_connections; and, as history, entries lost to fd reuse and
      entries swept by FinalizeGracefulStop. */
  datatype Counts = Counts(total: nat, closed: nat, overwritten: nat, swept: nat)

  /** The completion callback; and, as history, the stop sessions: whether nobody was Connecting when
      this one began, which callbacks were registered and which were fired. */
  datatype Calls = Calls(callback: Option<CallbackId>, session: nat, clean: bool,
                         registered: seq<Registration>, fired: seq<Firing>)

  datatype Server = Server(
    table: map<Fd, ConnId>,
    conns: map<ConnId, Life>,         // every connection object ever made
    nextConn: ConnId,
    started: bool,
    stopping: bool,
    mainQueue: seq<MainTask>,
    pc: MainPc,
    stop: StopTimers,
    counts: Counts,
    calls: Calls)

  const NEW_SERVER := Server(map[], map[], 0, false, false, [], Free, StopTimers(0, 0, 0, 0, map[], 1),
                             Counts(0, 0, 0, 0), Calls(None, 0, true, [], []))

  // ---------- Connections, as the server sees them ----------

  function Posted(l: Life, t: Task): Life {
    l.(queue := l.queue + [t])
  }

  /** TcpConnection::Shutdown and ForceClose called from the main thread. */
  function ShutdownRemotely(l: Life): Life {
    if l.state == Connected then Posted(l.(state := Disconnecting), ShutdownTask) else l
  }

  function ForceCloseRemotely(l: Life): Life {
    if l.state == Connected || l.state == Disconnecting
    then Posted(l.(state := Disconnecting), ForceCloseTask) else l
  }

  /** What a step of its own loop does to a connection, and whether it makes the close callback. */
  datatype Effect = Effect(life: Life, removal: bool)

  /** HandleClose up to the close callback; the socket is closed afterwards. */
  function BeginClose(l: Life): Effect {
    if l.state == Disconnected then Effect(l, false)
    else Effect(l.(state := Disconnected, closing := ToClose(false)), true)
  }

  /** ForceCloseInLoop closes the socket before it makes the callback. */
  function ForceCloseNow(l: Life): Effect {
    if l.state == Connected || l.state == Disconnecting
    then Effect(l.(state := Disconnected, closing := ToClose(true)), false)
    else Effect(l, false)
  }

  /** ConnectDestroyed closes the socket and makes no callback. */
  function DestroyNow(l: Life): Effect {
    if l.state == Connected || l.state == Disconnecting
    then Effect(l.(state := Disconnected, closing := ToClose(false)), false)
    else Effect(l, false)
  }

  /** The next functor of the connection; `drained` says that its output buffer is empty. */
  function TaskEffect(l: Life, drained: bool): Effect
    requires l.queue != []
  {
    var l1 := l.(queue := l.queue[1..]);
    match l.queue[0]
    case Establish => Effect(l1.(state := Connected), false)
    case ShutdownTask => if drained then BeginClose(l1) else Effect(l1, false)
    case ForceCloseTask => ForceCloseNow(l1)
    case DestroyTask => DestroyNow(l1)
    case SendTask(_) => Effect(l1, false)
  }

  /** The rest of a close, step by step. */
  function CloseFurther(l: Life): Effect {
    match l.closing
    case NotClosing => Effect(l, false)
    case ToClose(callback) => Effect(l.(closing := KernelClosed(callback)), false)
    case KernelClosed(callback) =>
      Effect(l.(fd := INVALID_FD, closing := if callback then ToCallback else NotClosing), false)
    case ToCallback => Effect(l.(closing := NotClosing), true)
  }

  /** Shutdown called by a callback on the connection's own loop. */
  function InlineShutdownEffect(l: Life, drained: bool): Effect {
    var l1 := l.(state := Disconnecting);
    if drained then BeginClose(l1) else Effect(l1, false)
  }

  /** The close callback queues the removal on the main loop. */
  function Take(s: Server, c: ConnId, e: Effect): Server {
    s.(conns := s.conns[c := e.life],
       mainQueue := if e.removal then s.mainQueue + [RemoveTask(c)] else s.mainQueue)
  }

  // ---------- The server's own operations ----------

  predicate IsConnected(s: Server, f: Fd) {
    f in s.table && s.table[f] in s.conns && s.conns[s.table[f]].state == Connected
  }

  function HandleNewConnection(s: Server, fd: Fd): Server {
    if s.stopping then s
    else
      var c := s.nextConn;
      s.(table := s.table[fd := c],
         conns := s.conns[c := Life(Connecting, fd, fd, [Establish], NotClosing)],
         nextConn := c + 1,
         counts := s.counts.(total := s.counts.total + 1,
                             overwritten := s.counts.overwritten + if fd in s.table then 1 else 0))
  }

  function Cleared(t: StopTimers): StopTimers {
    StopTimers(0, 0, 0, 0, t.timers - {t.checkId, t.deadlineId, t.idleId, t.metricsId}, t.nextTimer)
  }

  function Fired(c: Calls): Calls {
    c.(callback := None,
       fired := if c.callback.Some? then c.fired + [Firing(c.session, c.callback.value)] else c.fired)
  }

  function Finished(s: Server): Server {
    s.(pc := Free, started := false, stopping := false, stop := Cleared(s.stop), calls := Fired(s.calls))
  }

  /** FinalizeGracefulStop enters the first of its loops. Every caller returns right after it. */
  function FinalizeGracefulStop(s: Server, force: bool): Server {
    if s.stopping then s.(pc := Sweeping(s.table.Keys, {}, force)) else s
  }

  /** First loop: an entry that is not connected leaves the table. */
  function SweepEntry(s: Server, f: Fd): Server
    requires s.pc.Sweeping? && f in s.table
  {
    var rest := s.pc.fds - {f};
    if IsConnected(s, f) then s.(pc := Sweeping(rest, s.pc.stale, s.pc.force))
    else s.(table := s.table - {f}, counts := s.counts.(swept := s.counts.swept + 1),
            pc := Sweeping(rest, s.pc.stale + {s.table[f]}, s.pc.force))
  }

  /** Second loop: ConnectDestroyed is queued for what left. */
  function DestroyStale(s: Server, c: ConnId): Server
    requires s.pc.Destroying? && c in s.conns
  {
    Take(s, c, Effect(Posted(s.conns[c], DestroyTask), false)).(pc := Destroying(s.pc.conns - {c}, s.pc.force))
  }

  /** Third loop, at the deadline only: what is left is forced closed. */
  function ForceEntry(s: Server, f: Fd): Server
    requires s.pc.Forcing? && f in s.table && s.table[f] in s.conns
  {
    var c := s.table[f];
    Take(s, c, Effect(ForceCloseRemotely(s.conns[c]), false)).(pc := Forcing(s.pc.rest - {f}, s.pc.force))
  }

  /** The end of FinalizeGracefulStop: at the deadline a table that is not empty has to wait. */
  function EndOfFinalize(s: Server): Server
    requires s.pc.Forcing?
  {
    if s.pc.force && s.table != map[] then s.(pc := Free) else Finished(s)
  }

  function Erased(s: Server, c: ConnId, fd: Fd): Server
    requires c in s.conns
  {
    s.(conns := s.conns[c := Posted(s.conns[c], DestroyTask)], table := s.table - {fd},
       counts := s.counts.(closed := s.counts.closed + 1))
  }

  /** The functor queued by HandleRemoveConnection; the fd is read when it runs. */
  function RemoveConnection(s: Server, c: ConnId): Server
    requires c in s.conns
  {
    var fd := s.conns[c].fd;
    if fd !in s.table then s
    else
      var s1 := Erased(s, c, fd);
      if s1.stopping && s1.table == map[] then FinalizeGracefulStop(s1, false) else s1
  }

  predicate NobodyConnecting(s: Server) {
    forall f :: f in s.table && s.table[f] in s.conns ==> s.conns[s.table[f]].state != Connecting
  }

  /** StopGracefully on the main thread, up to the walk over the table. */
  function StopGracefully(s: Server, cb: Option<CallbackId>): Server {
    if !s.started then s
    else if s.stopping then
      if cb.None? then s
      else s.(calls := s.calls.(callback := cb, registered := s.calls.registered + [Registration(s.calls.session, cb)]))
    else
      s.(stopping := true, pc := Walking(s.table.Keys),
         calls := s.calls.(callback := cb, session := s.calls.session + 1, clean := NobodyConnecting(s),
                           registered := s.calls.registered + [Registration(s.calls.session + 1, cb)]))
  }

  /** One turn of the walk. */
  function WalkEntry(s: Server, f: Fd): Server
    requires s.pc.Walking? && f in s.table && s.table[f] in s.conns
  {
    var c := s.table[f];
    Take(s, c, Effect(ShutdownRemotely(s.conns[c]), false)).(pc := Walking(s.pc.todo - {f}))
  }

  /** After the walk: finished already, or the check timer and the deadline are armed. */
  function EndOfWalk(s: Server): Server {
    var s0 := s.(pc := Free);
    if s0.table == map[] then FinalizeGracefulStop(s0, false) else s0.(stop := WithDeadline(s.stop))
  }

  /** RunEvery or RunAfter on the main loop: the timer gets the next id. */
  function WithTimer(t: StopTimers, kind: TimerKind): StopTimers {
    t.(timers := t.timers[t.nextTimer := kind], nextTimer := t.nextTimer + 1)
  }

  function WithDeadline(t: StopTimers): StopTimers {
    var t1 := if t.checkId != 0 then t else WithTimer(t, CheckTimer).(checkId := t.nextTimer);
    WithTimer(t1, DeadlineTimer).(deadlineId := t1.nextTimer)
  }

  function Start(s: Server, idle: bool, metrics: bool): Server {
    if s.started then s else s.(started := true, stop := WithScans(s.stop, idle, metrics))
  }

  function WithScans(t: StopTimers, idle: bool, metrics: bool): StopTimers {
    var t1 := if idle then WithTimer(t, IdleTimer).(idleId := t.nextTimer) else t;
    if metrics then WithTimer(t1, MetricsTimer).(metricsId := t1.nextTimer) else t1
  }

  function FireTimer(s: Server, id: TimerId): Server
    requires id in s.stop.timers
  {
    match s.stop.timers[id]
    case CheckTimer => if s.table == map[] then FinalizeGracefulStop(s, false) else s
    case DeadlineTimer => FinalizeGracefulStop(s.(stop := s.stop.(timers := s.stop.timers - {id})), true)
    case IdleTimer => s
    case MetricsTimer => s
  }

  // ---------- Steps ----------

  datatype Step =
    // main thread
    | Accept(fd: Fd)
    | RunMainTask
    | StopCall(cb: Option<CallbackId>)
    | WalkOne(f: Fd)
    | EndWalk
    | Fire(id: TimerId)
    | StartCall(idle: bool, metrics: bool)
    | CloseIdle(f: Fd)                       // ScanIdleConnections picks this entry
    | SweepOne(f: Fd)
    | EndSweep
    | DestroyOne(c: ConnId)
    | EndDestroy
    | ForceOne(f: Fd)
    | EndFinalize
    // sub loops
    | RunConnTask(conn: ConnId, drained: bool)
    | PeerClose(conn: ConnId)                // EOF, error or hang-up reaches HandleClose
    | GoOnClosing(conn: ConnId)
    | InlineShutdown(conn: ConnId, drained: bool)
    | InlineForceClose(conn: ConnId)
    // other threads
    | RemoteStop(cb: Option<CallbackId>)
    | RemoteShutdownCall(conn: ConnId)
    | RemoteForceCloseCall(conn: ConnId)

  predicate KernelOpen(l: Life) {
    l.fd != INVALID_FD && !l.closing.KernelClosed?
  }

  /** accept returns an fd that is not open in the kernel. */
  ghost predicate FreshFd(s: Server, fd: Fd) {
    fd >= 0 && forall c :: c in s.conns && KernelOpen(s.conns[c]) ==> s.conns[c].key != fd
  }

  /** The connection's own thread is not in the middle of closing it. */
  predicate LoopReady(s: Server, c: ConnId) {
    c in s.conns && s.conns[c].closing.NotClosing?
  }

  predicate IsOpen(s: Server, c: ConnId) {
    LoopReady(s, c) && (s.conns[c].state == Connected || s.conns[c].state == Disconnecting)
  }

  ghost predicate Enabled(s: Server, step: Step) {
    match step
    case Accept(fd) => s.pc.Free? && s.started && FreshFd(s, fd)
    case RunMainTask =>
      s.pc.Free? && s.mainQueue != [] && (s.mainQueue[0].RemoveTask? ==> s.mainQueue[0].conn in s.conns)
    case StopCall(_) => s.pc.Free?
    case WalkOne(f) => s.pc.Walking? && f in s.pc.todo && f in s.table && s.table[f] in s.conns
    case EndWalk => s.pc.Walking? && s.pc.todo == {}
    case Fire(id) => s.pc.Free? && id in s.stop.timers
    case StartCall(_, _) => s.pc.Free?
    case CloseIdle(f) => s.pc.Free? && IsConnected(s, f)
    case SweepOne(f) => s.pc.Sweeping? && f in s.pc.fds && f in s.table
    case EndSweep => s.pc.Sweeping? && s.pc.fds == {}
    case DestroyOne(c) => s.pc.Destroying? && c in s.pc.conns && c in s.conns
    case EndDestroy => s.pc.Destroying? && s.pc.conns == {}
    case ForceOne(f) => s.pc.Forcing? && f in s.pc.rest && f in s.table && s.table[f] in s.conns
    case EndFinalize => s.pc.Forcing? && s.pc.rest == {}
    case RunConnTask(c, _) => LoopReady(s, c) && s.conns[c].queue != []
    case PeerClose(c) => IsOpen(s, c)
    case GoOnClosing(c) => c in s.conns && !s.conns[c].closing.NotClosing?
    case InlineShutdown(c, _) => LoopReady(s, c) && s.conns[c].state == Connected
    case InlineForceClose(c) => IsOpen(s, c)
    case RemoteStop(_) => true
    case RemoteShutdownCall(c) => c in s.conns
    case RemoteForceCloseCall(c) => c in s.conns
  }

  ghost function Next(s: Server, step: Step): Server {
    if !Enabled(s, step) then s
    else match step
      case Accept(fd) => HandleNewConnection(s, fd)
      case RunMainTask =>
        var s1 := s.(mainQueue := s.mainQueue[1..]);
        (match s.mainQueue[0]
         case RemoveTask(c) => RemoveConnection(s1, c)
         case StopTask(cb) => StopGracefully(s1, cb))
      case StopCall(cb) => StopGracefully(s, cb)
      case WalkOne(f) => WalkEntry(s, f)
      case EndWalk => EndOfWalk(s)
      case Fire(id) => FireTimer(s, id)
      case StartCall(idle, metrics) => Start(s, idle, metrics)
      case CloseIdle(f) => Take(s, s.table[f], Effect(ForceCloseRemotely(s.conns[s.table[f]]), false))
      case SweepOne(f) => SweepEntry(s, f)
      case EndSweep => s.(pc := Destroying(s.pc.stale, s.pc.force))
      case DestroyOne(c) => DestroyStale(s, c)
      case EndDestroy => s.(pc := Forcing(if s.pc.force then s.table.Keys else {}, s.pc.force))
      case ForceOne(f) => ForceEntry(s, f)
      case EndFinalize => EndOfFinalize(s)
      case RunConnTask(c, drained) => Take(s, c, TaskEffect(s.conns[c], drained))
      case PeerClose(c) => Take(s, c, BeginClose(s.conns[c]))
      case GoOnClosing(c) => Take(s, c, CloseFurther(s.conns[c]))
      case InlineShutdown(c, drained) => Take(s, c, InlineShutdownEffect(s.conns[c], drained))
      case InlineForceClose(c) => Take(s, c, ForceCloseNow(s.conns[c]))
      case RemoteStop(cb) => s.(mainQueue := s.mainQueue + [StopTask(cb)])
      case RemoteShutdownCall(c) => Take(s, c, Effect(ShutdownRemotely(s.conns[c]), false))
      case RemoteForceCloseCall(c) => Take(s, c, Effect(ForceCloseRemotely(s.conns[c]), false))
  }

  ghost function Run(s: Server, steps: seq<Step>): Server
    decreases |steps|
  {
    if steps == [] then s else Run(Next(s, steps[0]), steps[1..])
  }
}
