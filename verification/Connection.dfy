/** The connection state machine of TcpConnection, as pure steps. Each handler, each
    functor run by the loop and each check-and-set made by another thread is one step. Where a
    handler tests the state and goes on regardless of later changes, `meanwhile` lists the calls of
    other threads that land between the test and the rest. */
module Connections {
  import opened Bytes

  datatype ConnState = Connecting | Connected | Disconnecting | Disconnected

  function Rank(s: ConnState): nat {
    match s
    case Connecting => 0
    case Connected => 1
    case Disconnecting => 2
    case Disconnected => 3
  }

  /** Functors for this connection waiting in its loop's queue. */
  datatype Task = Establish | SendTask(data: Data) | ShutdownTask | ForceCloseTask | DestroyTask

  /** Calls made by other threads; RemoteDestroy is TcpServer queueing ConnectDestroyed. */
  datatype RemoteOp = RemoteSend(data: Data) | RemoteShutdown | RemoteForceClose | RemoteDestroy

  /** Calls on the connection made from inside the high-water callback, or meanwhile by others. */
  datatype CallbackOp = CbSend(data: Data, meanwhile: seq<RemoteOp>) | CbShutdown | CbForceClose
                      | CbMeanwhile(op: RemoteOp)

  /** Public calls on the loop thread; onHighWater is what the high-water callback would do. */
  datatype UserOp = Send(data: Data, meanwhile: seq<RemoteOp>, onHighWater: seq<CallbackOp>)
                  | Shutdown | ForceClose

  /** Received([]) is the end of the stream. */
  datatype ReadOutcome = Received(chunk: Data) | ReadWouldBlock | ReadFailed

  datatype WriteOutcome = Wrote(n: nat) | WriteWouldBlock | WriteFailed

  datatype Conn = Conn(
    state: ConnState,
    reading: bool,           // the channel's interest
    writing: bool,
    added: bool,             // registered with the poller
    open: bool,              // the socket has not been closed
    input: Data,
    output: Data,
    pendingWriteBytes: nat,
    totalRead: nat,
    totalWritten: nat,
    highWaterMark: nat,
    watched: bool,           // a high-water callback is set
    queue: seq<Task>,
    // history: bytes taken from the kernel, queued by sends, handed to the kernel; callbacks made
    received: Data,
    accepted: Data,
    written: Data,
    closeCalls: nat,
    highWaterCalls: nat)

  /** A connection as TcpServer hands it to its loop. */
  function NewConn(mark: nat, watched: bool): Conn {
    Conn(Connecting, false, false, false, true, [], [], 0, 0, 0, mark, watched, [Establish], [], [], [], 0, 0)
  }

  // ---------- Channel: interest changes, passed on to the poller ----------

  function WithInterest(s: Conn, reading: bool, writing: bool): Conn {
    s.(reading := reading, writing := writing, added := reading || writing)
  }

  function EnsureWriting(s: Conn): Conn {
    if s.writing then s else WithInterest(s, s.reading, true)
  }

  // ---------- Lifecycle ----------

  function ConnectEstablished(s: Conn): Conn {
    WithInterest(s.(state := Connected), true, s.writing)
  }

  function Closed(s: Conn): Conn {
    WithInterest(s.(state := Disconnected, pendingWriteBytes := 0, open := false), false, false)
  }

  function ConnectDestroyed(s: Conn): Conn {
    if s.state == Connected || s.state == Disconnecting then Closed(s) else s
  }

  function HandleClose(s: Conn): Conn {
    if s.state == Disconnected then s else Closed(s).(closeCalls := s.closeCalls + 1)
  }

  function ShutdownInLoop(s: Conn): Conn {
    if s.output != [] then EnsureWriting(s) else HandleClose(s)
  }

  function ForceCloseInLoop(s: Conn): Conn {
    if s.state == Connected || s.state == Disconnecting
    then Closed(s).(closeCalls := s.closeCalls + 1) else s
  }

  // ---------- Calls of other threads ----------

  function CallRemotely(s: Conn, op: RemoteOp): Conn {
    match op
    case RemoteSend(data) => if s.state == Connected then s.(queue := s.queue + [SendTask(data)]) else s
    case RemoteShutdown =>
      if s.state == Connected then s.(state := Disconnecting, queue := s.queue + [ShutdownTask]) else s
    case RemoteForceClose =>
      if s.state == Connected || s.state == Disconnecting
      then s.(state := Disconnecting, queue := s.queue + [ForceCloseTask]) else s
    case RemoteDestroy => s.(queue := s.queue + [DestroyTask])
  }

  function RemoteAll(s: Conn, ops: seq<RemoteOp>): Conn
    decreases |ops|
  {
    if ops == [] then s else RemoteAll(CallRemotely(s, ops[0]), ops[1..])
  }

  /** One of the calls ends the Connected state. */
  predicate Interrupts(ops: seq<RemoteOp>) {
    RemoteShutdown in ops || RemoteForceClose in ops
  }

  // ---------- Sending ----------

  function Queued(s: Conn, data: Data): Conn {
    s.(output := s.output + data, accepted := s.accepted + data, pendingWriteBytes := |s.output| + |data|)
  }

  /** The append takes the queue over the mark. */
  predicate Crosses(s: Conn, data: Data) {
    |s.output| < s.highWaterMark <= |s.output| + |data|
  }

  /** One call from inside the high-water callback. There the queue is at the mark or above and
      only grows, so a nested send never crosses again (see NestedSendDoesNotCross). */
  function CallbackStep(s: Conn, op: CallbackOp): Conn {
    match op
    case CbSend(data, meanwhile) =>
      if s.state == Connected then EnsureWriting(Queued(RemoteAll(s, meanwhile), data)) else s
    case CbShutdown => if s.state == Connected then ShutdownInLoop(s.(state := Disconnecting)) else s
    case CbForceClose =>
      if s.state == Connected || s.state == Disconnecting
      then ForceCloseInLoop(s.(state := Disconnecting)) else s
    case CbMeanwhile(call) => CallRemotely(s, call)
  }

  function RunCallback(s: Conn, ops: seq<CallbackOp>): Conn
    decreases |ops|
  {
    if ops == [] then s else RunCallback(CallbackStep(s, ops[0]), ops[1..])
  }

  function SendInLoop(s: Conn, data: Data, meanwhile: seq<RemoteOp>, onHighWater: seq<CallbackOp>): Conn {
    if s.state != Connected then s
    else
      var s1 := Queued(RemoteAll(s, meanwhile), data);
      var s2 := if s.watched && Crosses(s, data)
                then RunCallback(s1.(highWaterCalls := s.highWaterCalls + 1), onHighWater) else s1;
      EnsureWriting(s2)
  }

  // ---------- Poll events ----------

  /** After EOF or a read error the connection is closed; the state is not looked at. */
  function HandleRead(s: Conn, r: ReadOutcome): Conn {
    match r
    case Received(chunk) =>
      if chunk == [] then HandleClose(s)
      else s.(input := s.input + chunk, received := s.received + chunk, totalRead := s.totalRead + |chunk|)
    case ReadWouldBlock => s
    case ReadFailed => HandleClose(s)
  }

  /** The guard of HandleWrite, and the rest with whatever happens in between. */
  function HandleWrite(s: Conn, w: WriteOutcome, meanwhile: seq<RemoteOp>): Conn {
    if s.state != Connected then s else WriteOut(RemoteAll(s, meanwhile), w)
  }

  /** WriteToFd on an empty buffer returns 0 without an error code, which counts as a failure. */
  function WriteOut(s: Conn, w: WriteOutcome): Conn {
    if s.output == [] then HandleClose(s)
    else match w
      case Wrote(n) => if n == 0 then HandleClose(s) else AfterWrite(s, Min(n, |s.output|))
      case WriteWouldBlock => s
      case WriteFailed => HandleClose(s)
  }

  /** The kernel has taken k bytes. */
  function AfterWrite(s: Conn, k: nat): Conn
    requires 0 < k <= |s.output|
  {
    var s1 := s.(output := s.output[k..], written := s.written + s.output[..k],
                 totalWritten := s.totalWritten + k, pendingWriteBytes := |s.output| - k);
    if s1.output != [] then s1
    else
      var s2 := WithInterest(s1, s1.reading, false);
      if s2.state == Disconnecting then HandleClose(s2) else s2
  }

  // ---------- The machine ----------

  datatype Action =
    | OnClose                              // POLLERR or POLLHUP reaches HandleClose
    | OnRead(read: ReadOutcome)
    | OnWrite(write: WriteOutcome, meanwhile: seq<RemoteOp>)
    | Call(call: UserOp)                   // a callback running on the loop thread
    | Remote(op: RemoteOp)                 // a call from another thread
    | RunTask(meanwhile: seq<RemoteOp>, onHighWater: seq<CallbackOp>)

  function CallInLoop(s: Conn, op: UserOp): Conn {
    match op
    case Send(data, meanwhile, cb) => SendInLoop(s, data, meanwhile, cb)
    case Shutdown => CallbackStep(s, CbShutdown)
    case ForceClose => CallbackStep(s, CbForceClose)
  }

  function RunNext(s: Conn, meanwhile: seq<RemoteOp>, onHighWater: seq<CallbackOp>): Conn
    requires s.queue != []
  {
    var s1 := s.(queue := s.queue[1..]);
    match s.queue[0]
    case Establish => ConnectEstablished(s1)
    case SendTask(data) => SendInLoop(s1, data, meanwhile, onHighWater)
    case ShutdownTask => ShutdownInLoop(s1)
    case ForceCloseTask => ForceCloseInLoop(s1)
    case DestroyTask => ConnectDestroyed(s1)
  }

  /** One step. The poller only reports events of a registered channel that it is interested in. */
  function Act(s: Conn, a: Action): Conn {
    match a
    case OnClose => if s.added then HandleClose(s) else s
    case OnRead(r) => if s.reading then HandleRead(s, r) else s
    case OnWrite(w, meanwhile) => if s.writing then HandleWrite(s, w, meanwhile) else s
    case Call(op) => CallInLoop(s, op)
    case Remote(op) => CallRemotely(s, op)
    case RunTask(meanwhile, cb) => if s.queue != [] then RunNext(s, meanwhile, cb) else s
  }

  function Run(s: Conn, actions: seq<Action>): Conn
    decreases |actions|
  {
    if actions == [] then s else Run(Act(s, actions[0]), actions[1..])
  }

  /** What POLLIN leads to: the message callback, which makes `calls`, runs only if bytes came in. */
  function ReadActions(r: ReadOutcome, calls: seq<UserOp>): seq<Action> {
    [OnRead(r)] + if r.Received? && r.chunk != [] then CallActions(calls) else []
  }

  function CallActions(calls: seq<UserOp>): seq<Action> {
    seq(|calls|, i requires 0 <= i < |calls| => Call(calls[i]))
  }

  /** Channel::HandleEvent: error before hang-up before read before write. An error runs the error
      handler and then the close handler. */
  function Dispatch(error: bool, hangup: bool, readable: bool, writable: bool, r: ReadOutcome,
                    calls: seq<UserOp>, w: WriteOutcome, meanwhile: seq<RemoteOp>): seq<Action>
  {
    if error then [OnClose, OnClose]
    else if hangup then [OnClose]
    else (if readable then ReadActions(r, calls) else []) + (if writable then [OnWrite(w, meanwhile)] else [])
  }

  // ---------- What every step keeps ----------

  /** Establish heads the queue of a connection that is still Connecting, and occurs nowhere else. */
  ghost predicate EstablishOnlyFirst(s: Conn) {
    if s.state == Connecting then s.queue != [] && s.queue[0] == Establish && Establish !in s.queue[1..]
    else Establish !in s.queue
  }

  ghost predicate Inv(s: Conn) {
    && s.accepted == s.written + s.output
    && s.totalWritten == |s.written|
    && s.totalRead == |s.received|
    && s.pendingWriteBytes == (if s.state == Disconnected then 0 else |s.output|)
    && s.closeCalls <= 1
    && (s.state != Disconnected ==> s.closeCalls == 0)
    && s.added == (s.reading || s.writing)
    && s.open == (s.state != Disconnected)
    && (s.state == Connecting ==> !s.added && s.output == [])
    && (s.state == Connected || s.state == Disconnecting ==> s.reading)
    && (s.state == Connected && s.output != [] ==> s.writing)
    && EstablishOnlyFirst(s)
  }

  /** What calls of other threads leave alone. They only queue functors, and may end Connected. */
  ghost predicate OnlyCalled(s: Conn, t: Conn) {
    t == s.(state := t.state, queue := t.queue)
  }

  lemma PostKeepsInv(s: Conn, task: Task)
    requires Inv(s) && task != Establish
    ensures Inv(s.(queue := s.queue + [task]))
    ensures s.state == Connected || s.state == Disconnecting ==>
              Inv(s.(state := Disconnecting, queue := s.queue + [task]))
  {
  }

  lemma RemoteStep(s: Conn, op: RemoteOp)
    ensures var t := CallRemotely(s, op);
            && OnlyCalled(s, t)
            && (Establish !in s.queue ==> Establish !in t.queue)
            && (Inv(s) ==> Inv(t))
            && (s.state == Connected ==> t.state == if Interrupts([op]) then Disconnecting else Connected)
            && (s.state != Connected ==> t.state == s.state)
  {
    hide Inv;
    if Inv(s) {
      match op
      case RemoteSend(data) => PostKeepsInv(s, SendTask(data));
      case RemoteShutdown => PostKeepsInv(s, ShutdownTask);
      case RemoteForceClose => PostKeepsInv(s, ForceCloseTask);
      case RemoteDestroy => PostKeepsInv(s, DestroyTask);
    }
  }

  lemma {:induction false} RemoteKeeps(s: Conn, ops: seq<RemoteOp>)
    ensures var t := RemoteAll(s, ops);
            && OnlyCalled(s, t)
            && (Establish !in s.queue ==> Establish !in t.queue)
            && (Inv(s) ==> Inv(t))
            && (s.state == Connected ==> t.state == if Interrupts(ops) then Disconnecting else Connected)
            && (s.state != Connected ==> t.state == s.state)
    decreases |ops|
  {
    hide CallRemotely, Inv;
    if ops != [] {
      RemoteStep(s, ops[0]);
      RemoteKeeps(CallRemotely(s, ops[0]), ops[1..]);
      assert ops == [ops[0]] + ops[1..];
    }
  }

  /** Inside the callback: the same, except that write interest has yet to be switched on. */
  ghost predicate CallbackInv(s: Conn, entry: Conn) {
    && s.accepted == s.written + s.output
    && s.written == entry.written && s.totalWritten == entry.totalWritten
    && s.received == entry.received && s.totalRead == entry.totalRead && s.input == entry.input
    && Establish !in s.queue && s.highWaterMark == entry.highWaterMark && s.watched == entry.watched
    && s.highWaterCalls == entry.highWaterCalls
    && |s.output| >= |entry.output| > 0
    && s.pendingWriteBytes == (if s.state == Disconnected then 0 else |s.output|)
    && Rank(s.state) >= Rank(entry.state) >= 1
    && s.closeCalls == entry.closeCalls + (if s.state == Disconnected then 1 else 0)
    && s.added == (s.reading || s.writing)
    && s.open == (s.state != Disconnected)
    && (if s.state == Disconnected then !s.added else s.reading)
  }

  lemma CallbackStepKeeps(s: Conn, entry: Conn, op: CallbackOp)
    requires CallbackInv(s, entry)
    ensures var t := CallbackStep(s, op);
            && CallbackInv(t, entry)
            && (t.state == Disconnected <==> s.state == Disconnected || op == CbForceClose)
  {
    match op
    case CbSend(_, meanwhile) => hide Inv; RemoteKeeps(s, meanwhile);
    case CbMeanwhile(call) => hide Inv, CallRemotely; RemoteStep(s, call);
    case _ =>
  }

  lemma {:induction false} CallbackKeeps(s: Conn, entry: Conn, ops: seq<CallbackOp>)
    requires CallbackInv(s, entry)
    ensures CallbackInv(RunCallback(s, ops), entry)
    ensures RunCallback(s, ops).state == Disconnected <==> s.state == Disconnected || CbForceClose in ops
    decreases |ops|
  {
    if ops != [] {
      CallbackStepKeeps(s, entry, ops[0]);
      CallbackKeeps(CallbackStep(s, ops[0]), entry, ops[1..]);
    }
  }

  /** The state on entry to the high-water callback. */
  function AtCallback(s: Conn, data: Data, meanwhile: seq<RemoteOp>): Conn {
    Queued(RemoteAll(s, meanwhile), data).(highWaterCalls := s.highWaterCalls + 1)
  }

  lemma AtCallbackInv(s: Conn, data: Data, meanwhile: seq<RemoteOp>)
    requires Inv(s) && s.state == Connected && Crosses(s, data)
    ensures CallbackInv(AtCallback(s, data, meanwhile), AtCallback(s, data, meanwhile))
  {
    RemoteKeeps(s, meanwhile);
  }

  /** Inside the callback the queue is at the mark or above, so sends from there cannot cross. */
  lemma NestedSendDoesNotCross(s: Conn, data: Data, meanwhile: seq<RemoteOp>, ops: seq<CallbackOp>, more: Data)
    requires Inv(s) && s.state == Connected && Crosses(s, data)
    ensures !Crosses(RunCallback(AtCallback(s, data, meanwhile), ops), more)
  {
    var s1 := AtCallback(s, data, meanwhile);
    RemoteKeeps(s, meanwhile);
    AtCallbackInv(s, data, meanwhile);
    CallbackKeeps(s1, s1, ops);
  }

  lemma SendKeepsInv(s: Conn, data: Data, meanwhile: seq<RemoteOp>, cb: seq<CallbackOp>)
    requires Inv(s)
    ensures var t := SendInLoop(s, data, meanwhile, cb);
            && Inv(t) && Rank(t.state) >= Rank(s.state) && t.written == s.written
            && t.highWaterMark == s.highWaterMark && t.watched == s.watched && |t.output| >= |s.output|
            && t.highWaterCalls == s.highWaterCalls + HighWaterCall(s, t)
    ensures s.state == Connected ==> SentNow(s, SendInLoop(s, data, meanwhile, cb), data, meanwhile, cb)
  {
    if s.state == Connected {
      RemoteKeeps(s, meanwhile);
      if s.watched && Crosses(s, data) {
        var s1 := AtCallback(s, data, meanwhile);
        AtCallbackInv(s, data, meanwhile);
        CallbackKeeps(s1, s1, cb);
      }
    }
  }

  /** The callback is due when the queue goes from below the mark to the mark or above. */
  function HighWaterCall(s: Conn, t: Conn): nat {
    if s.watched && |s.output| < s.highWaterMark <= |t.output| then 1 else 0
  }

  /** What a send that was not refused leaves behind, whether or not it makes the callback. */
  ghost predicate SentNow(s: Conn, t: Conn, data: Data, meanwhile: seq<RemoteOp>, cb: seq<CallbackOp>) {
    && |t.output| >= |s.output| + |data| && t.writing
    && (if s.watched && Crosses(s, data)
        then t.output != [] && (t.state == Disconnected <==> CbForceClose in cb)
        else t.state == (if Interrupts(meanwhile) then Disconnecting else Connected) && t.output == s.output + data)
  }

  ghost predicate Progress(s: Conn, t: Conn) {
    Inv(t) && Rank(t.state) >= Rank(s.state)
  }

  lemma CloseKeepsInv(s: Conn)
    requires Inv(s) && s.state != Connecting
    ensures Progress(s, HandleClose(s)) && Progress(s, ForceCloseInLoop(s))
    ensures Progress(s, ConnectDestroyed(s)) && Progress(s, ShutdownInLoop(s))
  {
  }

  lemma AfterWriteKeepsInv(s: Conn, k: nat)
    requires Inv(s) && 0 < k <= |s.output| && (s.state == Connected || s.state == Disconnecting)
    ensures Progress(s, AfterWrite(s, k))
  {
  }

  lemma WriteKeepsInv(s: Conn, w: WriteOutcome, meanwhile: seq<RemoteOp>)
    requires Inv(s)
    ensures Progress(s, HandleWrite(s, w, meanwhile))
  {
    if s.state == Connected {
      hide AfterWrite, Inv;
      RemoteKeeps(s, meanwhile);
      var s1 := RemoteAll(s, meanwhile);
      CloseKeepsInv(s1);
      if s1.output != [] && w.Wrote? && w.n > 0 {
        AfterWriteKeepsInv(s1, Min(w.n, |s1.output|));
      }
    }
  }

  lemma CallKeepsInv(s: Conn, op: UserOp)
    requires Inv(s)
    ensures Progress(s, CallInLoop(s, op))
  {
    if op.Send? {
      SendKeepsInv(s, op.data, op.meanwhile, op.onHighWater);
    }
  }

  lemma RemoteKeepsInv(s: Conn, op: RemoteOp)
    requires Inv(s)
    ensures Progress(s, CallRemotely(s, op))
  {
  }

  lemma TaskKeepsInv(s: Conn, meanwhile: seq<RemoteOp>, cb: seq<CallbackOp>)
    requires Inv(s) && s.queue != []
    ensures Progress(s, RunNext(s, meanwhile, cb))
    ensures s.queue[0] == Establish <==> s.state == Connecting
  {
    var s1 := s.(queue := s.queue[1..]);
    if s.state == Connecting {
      assert Inv(ConnectEstablished(s1));
    } else {
      assert Inv(s1);
      CloseKeepsInv(s1);
      if s.queue[0].SendTask? {
        SendKeepsInv(s1, s.queue[0].data, meanwhile, cb);
      }
    }
  }

  /** Every step keeps the invariant and never moves the state backwards; Disconnected is
      absorbing because it ranks highest. */
  lemma ActKeepsInv(s: Conn, a: Action)
    requires Inv(s)
    ensures Progress(s, Act(s, a))
  {
    match a
    case OnClose => if s.added { CloseKeepsInv(s); }
    case OnRead(_) => if s.reading { CloseKeepsInv(s); }
    case OnWrite(w, meanwhile) => WriteKeepsInv(s, w, meanwhile);
    case Call(op) => CallKeepsInv(s, op);
    case Remote(op) => RemoteKeepsInv(s, op);
    case RunTask(meanwhile, cb) => if s.queue != [] { TaskKeepsInv(s, meanwhile, cb); }
  }
}
