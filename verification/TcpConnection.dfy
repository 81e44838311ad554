/** TcpConnection as the object it is: fields updated in place by its handlers, each of which is
    proved to take the step of the connection machine that carries its name. */
module TcpConnections {
  import opened Bytes
  import opened Buffers
  import opened Connections

  /** Interest flags and the registration that every change passes on to the poller. */
  class Channel {
    var reading: bool
    var writing: bool
    var added: bool

    constructor ()
      ensures !reading && !writing && !added
    {
      reading, writing, added := false, false, false;
    }

    /** The poller adds a channel on its first interest and removes it with its last. */
    method UpdateChannel()
      modifies this`added
      ensures added == (reading || writing)
    {
      if !reading && !writing {
        added := false;
      } else if !added {
        added := true;
      }
    }

    method EnableReading()
      modifies this
      ensures reading && writing == old(writing) && added
    {
      reading := true;
      UpdateChannel();
    }

    method EnableWriting()
      modifies this
      ensures writing && reading == old(reading) && added
    {
      writing := true;
      UpdateChannel();
    }

    method DisableWriting()
      modifies this
      ensures !writing && reading == old(reading) && added == reading
    {
      writing := false;
      UpdateChannel();
    }

    method DisableAll()
      modifies this
      ensures !reading && !writing && !added
    {
      reading, writing := false, false;
      UpdateChannel();
    }
  }

  class TcpConnection {
    var state: ConnState
    const channel: Channel
    const input: Buffer
    const output: Buffer
    var open: bool
    var pendingWriteBytes: nat
    var totalRead: nat
    var totalWritten: nat
    const highWaterMark: nat
    const watched: bool               // m_high_water_mark_callback is set
    var queue: seq<Task>

    ghost var received: Data
    ghost var accepted: Data
    ghost var written: Data
    ghost var closeCalls: nat
    ghost var highWaterCalls: nat

    ghost predicate Valid()
      reads this, input, input.buf, output, output.buf
    {
      input.Valid() && output.Valid() && input != output && input.buf != output.buf
    }

    ghost function View(): Conn
      requires Valid()
      reads this, channel, input, input.buf, output, output.buf
    {
      Conn(state, channel.reading, channel.writing, channel.added, open, input.Contents(), output.Contents(),
           pendingWriteBytes, totalRead, totalWritten, highWaterMark, watched, queue,
           received, accepted, written, closeCalls, highWaterCalls)
    }

    constructor (mark: nat, callbackSet: bool)
      ensures Valid() && View() == NewConn(mark, callbackSet)
      ensures fresh(channel) && fresh(input) && fresh(output) && fresh(input.buf) && fresh(output.buf)
    {
      state, open := Connecting, true;
      channel := new Channel();
      input := new Buffer(INITIAL_SIZE);
      output := new Buffer(INITIAL_SIZE);
      pendingWriteBytes, totalRead, totalWritten, highWaterMark, watched := 0, 0, 0, mark, callbackSet;
      queue := [Establish];
      received, accepted, written, closeCalls, highWaterCalls := [], [], [], 0, 0;
    }

    method ConnectEstablished()
      requires Valid() && state == Connecting
      modifies this`state, channel
      ensures Valid() && View() == Connections.ConnectEstablished(old(View()))
    {
      state := Connected;
      channel.EnableReading();
    }

    method ConnectDestroyed()
      requires Valid()
      modifies this`state, this`pendingWriteBytes, this`open, channel
      ensures Valid() && View() == Connections.ConnectDestroyed(old(View()))
    {
      if state == Connected || state == Disconnecting {
        state := Disconnected;
        pendingWriteBytes := 0;
        channel.DisableAll();
        open := false;
      }
    }

    method HandleClose()
      requires Valid()
      modifies this`state, this`pendingWriteBytes, this`open, this`closeCalls, channel
      ensures Valid() && View() == Connections.HandleClose(old(View()))
    {
      if state == Disconnected {
        return;
      }
      state := Disconnected;
      pendingWriteBytes := 0;
      channel.DisableAll();
      closeCalls := closeCalls + 1;
      open := false;
    }

    method ShutdownInLoop()
      requires Valid()
      modifies this`state, this`pendingWriteBytes, this`open, this`closeCalls, channel
      ensures Valid() && View() == Connections.ShutdownInLoop(old(View()))
    {
      if output.ReadableBytes() > 0 {
        EnsureWriting();
      } else {
        HandleClose();
      }
    }

    method ForceCloseInLoop()
      requires Valid()
      modifies this`state, this`pendingWriteBytes, this`open, this`closeCalls, channel
      ensures Valid() && View() == Connections.ForceCloseInLoop(old(View()))
    {
      if state == Connected || state == Disconnecting {
        state := Disconnected;
        pendingWriteBytes := 0;
        channel.DisableAll();
        open := false;
        closeCalls := closeCalls + 1;
      }
    }

    /** Runs inline on the loop thread, otherwise queues the rest of the work. */
    method Shutdown(inLoopThread: bool)
      requires Valid()
      modifies this`state, this`pendingWriteBytes, this`open, this`closeCalls, this`queue, channel
      ensures Valid()
      ensures View() == Act(old(View()), if inLoopThread then Call(UserOp.Shutdown) else Remote(RemoteShutdown))
    {
      if state == Connected {
        state := Disconnecting;
        if inLoopThread {
          ShutdownInLoop();
        } else {
          queue := queue + [ShutdownTask];
        }
      }
    }

    method ForceClose(inLoopThread: bool)
      requires Valid()
      modifies this`state, this`pendingWriteBytes, this`open, this`closeCalls, this`queue, channel
      ensures Valid()
      ensures View() == Act(old(View()), if inLoopThread then Call(UserOp.ForceClose) else Remote(RemoteForceClose))
    {
      if state == Connected || state == Disconnecting {
        state := Disconnecting;
        if inLoopThread {
          ForceCloseInLoop();
        } else {
          queue := queue + [ForceCloseTask];
        }
      }
    }

    /** Calls that other threads make while the loop thread is between a test of the state and the rest. */
    method OtherThreads(ops: seq<RemoteOp>)
      requires Valid()
      modifies this`state, this`pendingWriteBytes, this`open, this`closeCalls, this`queue, channel
      ensures Valid() && View() == RemoteAll(old(View()), ops)
      decreases |ops|
    {
      hide CallRemotely;
      if ops == [] {
        return;
      }
      OtherThread(ops[0]);
      OtherThreads(ops[1..]);
    }

    method OtherThread(op: RemoteOp)
      requires Valid()
      modifies this`state, this`pendingWriteBytes, this`open, this`closeCalls, this`queue, channel
      ensures Valid() && View() == Act(old(View()), Remote(op))
    {
      match op
      case RemoteSend(data) => SendFromOtherThread(data);
      case RemoteShutdown => Shutdown(false);
      case RemoteForceClose => ForceClose(false);
      case RemoteDestroy => queue := queue + [DestroyTask];
    }

    method QueueOutput(data: Data)
      requires Valid()
      modifies this`pendingWriteBytes, this`accepted, output, output.buf
      ensures Valid() && (output.buf == old(output.buf) || fresh(output.buf))
      ensures View() == Queued(old(View()), data)
    {
      output.Append(data);
      accepted := accepted + data;
      pendingWriteBytes := output.ReadableBytes();
    }

    method EnsureWriting()
      requires Valid()
      modifies channel
      ensures Valid() && View() == Connections.EnsureWriting(old(View()))
    {
      if !channel.writing {
        channel.EnableWriting();
      }
    }

    /** One call made by the high-water callback. */
    method CallbackCall(op: CallbackOp)
      requires Valid()
      modifies this, channel, output, output.buf
      ensures Valid() && (output.buf == old(output.buf) || fresh(output.buf))
      ensures View() == CallbackStep(old(View()), op)
    {
      hide CallRemotely, Connections.ShutdownInLoop, Connections.ForceCloseInLoop;
      match op {
        case CbSend(data, meanwhile) =>
          if state == Connected {
            OtherThreads(meanwhile);
            QueueOutput(data);
            EnsureWriting();
          }
        case CbShutdown => Shutdown(true);
        case CbForceClose => ForceClose(true);
        case CbMeanwhile(call) => OtherThread(call);
      }
    }

    /** The high-water callback, as a list of calls that it makes on this connection. */
    method HighWaterCallback(ops: seq<CallbackOp>)
      requires Valid()
      modifies this, channel, output, output.buf
      ensures Valid() && (output.buf == old(output.buf) || fresh(output.buf))
      ensures View() == RunCallback(old(View()), ops)
      decreases |ops|
    {
      if ops == [] {
        return;
      }
      CallbackCall(ops[0]);
      HighWaterCallback(ops[1..]);
    }

    method SendInLoop(data: Data, meanwhile: seq<RemoteOp>, onHighWater: seq<CallbackOp>)
      requires Valid()
      modifies this, channel, output, output.buf
      ensures Valid() && (output.buf == old(output.buf) || fresh(output.buf))
      ensures View() == Connections.SendInLoop(old(View()), data, meanwhile, onHighWater)
    {
      hide RunCallback, Connections.EnsureWriting, Connections.Inv, RemoteAll;
      if state != Connected {
        return;
      }
      RemoteKeeps(View(), meanwhile);
      OtherThreads(meanwhile);
      AppendOutput(data, onHighWater);
      EnsureWriting();
    }

    /** The append, with the high-water callback if it takes the queue over the mark. */
    method AppendOutput(data: Data, onHighWater: seq<CallbackOp>)
      requires Valid()
      modifies this, channel, output, output.buf
      ensures Valid() && (output.buf == old(output.buf) || fresh(output.buf))
      ensures var s := old(View());
              var s1 := Queued(s, data);
              View() == if watched && Crosses(s, data)
                        then RunCallback(s1.(highWaterCalls := s.highWaterCalls + 1), onHighWater) else s1
    {
      hide RunCallback;
      var oldPending := output.ReadableBytes();
      QueueOutput(data);
      var newPending := output.ReadableBytes();
      if watched && oldPending < highWaterMark && newPending >= highWaterMark {
        highWaterCalls := highWaterCalls + 1;
        HighWaterCallback(onHighWater);
      }
    }

    /** Send on the loop thread. */
    method Send(data: Data, meanwhile: seq<RemoteOp>, onHighWater: seq<CallbackOp>)
      requires Valid()
      modifies this, channel, output, output.buf
      ensures Valid() && (output.buf == old(output.buf) || fresh(output.buf))
      ensures View() == Act(old(View()), Call(UserOp.Send(data, meanwhile, onHighWater)))
    {
      if state != Connected {
        return;
      }
      SendInLoop(data, meanwhile, onHighWater);
    }

    method SendFromOtherThread(data: Data)
      requires Valid()
      modifies this`queue
      ensures Valid() && View() == Act(old(View()), Remote(RemoteSend(data)))
    {
      if state != Connected {
        return;
      }
      queue := queue + [SendTask(data)];
    }

    /** The part of HandleRead before the message callback. */
    method HandleRead(r: ReadOutcome)
      requires Valid()
      requires r.Received? ==> |r.chunk| <= input.ScatterCapacity()
      modifies this, channel, input, input.buf
      ensures Valid() && (input.buf == old(input.buf) || fresh(input.buf))
      ensures View() == Connections.HandleRead(old(View()), r)
    {
      var n := input.ReadFromFd(if r.Received? then Some(r.chunk) else None);
      if n > 0 {
        totalRead := totalRead + n;
        received := received + r.chunk;
      } else {
        assert input.Contents() == old(input.Contents());
        if n == 0 || r.ReadFailed? {
          HandleClose();
        }
      }
    }

    /** A write that the kernel takes k bytes of. */
    method WriteSome(k: nat)
      requires Valid() && 0 < k <= |output.Contents()|
      modifies this`state, this`open, this`closeCalls, this`totalWritten, this`written, this`pendingWriteBytes
      modifies channel, output`readIdx
      ensures Valid()
      ensures View() == AfterWrite(old(View()), k)
    {
      hide Connections.HandleClose;
      TakeWritten(k);
      if output.ReadableBytes() == 0 {
        Drained();
      }
    }

    method Drained()
      requires Valid()
      modifies this`state, this`open, this`closeCalls, this`pendingWriteBytes, channel
      ensures Valid()
      ensures var s := WithInterest(old(View()), old(channel.reading), false);
              View() == if s.state == Disconnecting then Connections.HandleClose(s) else s
    {
      channel.DisableWriting();
      if state == Disconnecting {
        HandleClose();
      }
    }

    method TakeWritten(k: nat)
      requires Valid() && 0 < k <= |output.Contents()|
      modifies this`totalWritten, this`written, this`pendingWriteBytes, output`readIdx
      ensures Valid()
      ensures var s := old(View());
              View() == s.(output := s.output[k..], written := s.written + s.output[..k],
                           totalWritten := s.totalWritten + k, pendingWriteBytes := |s.output| - k)
    {
      var n, sent := output.WriteToFd(k);
      totalWritten := totalWritten + n;
      written := written + sent;
      pendingWriteBytes := output.ReadableBytes();
    }

    method HandleWrite(w: WriteOutcome, meanwhile: seq<RemoteOp>)
      requires Valid()
      modifies this, channel, output
      ensures Valid()
      ensures View() == Connections.HandleWrite(old(View()), w, meanwhile)
    {
      if state != Connected {
        return;
      }
      OtherThreads(meanwhile);
      if output.ReadableBytes() == 0 {
        HandleClose();
        return;
      }
      match w
      case Wrote(n) =>
        var k := Min(n, output.ReadableBytes());
        if k > 0 {
          WriteSome(k);
        } else {
          HandleClose();
        }
      case WriteWouldBlock =>
      case WriteFailed => HandleClose();
    }

    /** The loop takes the next functor of this connection. */
    method RunQueued(meanwhile: seq<RemoteOp>, onHighWater: seq<CallbackOp>)
      requires Valid() && queue != []
      requires queue[0] == Establish ==> state == Connecting
      modifies this, channel, output, output.buf
      ensures Valid() && (output.buf == old(output.buf) || fresh(output.buf))
      ensures View() == Act(old(View()), RunTask(meanwhile, onHighWater))
    {
      var task := queue[0];
      queue := queue[1..];
      match task
      case Establish => ConnectEstablished();
      case SendTask(data) => SendInLoop(data, meanwhile, onHighWater);
      case ShutdownTask => ShutdownInLoop();
      case ForceCloseTask => ForceCloseInLoop();
      case DestroyTask => ConnectDestroyed();
    }

    /** What the message callback does, call by call. */
    method MessageCallback(calls: seq<UserOp>)
      requires Valid()
      modifies this, channel, output, output.buf
      ensures Valid() && (output.buf == old(output.buf) || fresh(output.buf))
      ensures View() == Run(old(View()), CallActions(calls))
    {
      for i := 0 to |calls|
        invariant Valid() && (output.buf == old(output.buf) || fresh(output.buf))
        invariant Run(View(), CallActions(calls[i..])) == Run(old(View()), CallActions(calls))
      {
        ghost var before := View();
        match calls[i] {
          case Send(data, meanwhile, cb) => Send(data, meanwhile, cb);
          case Shutdown => Shutdown(true);
          case ForceClose => ForceClose(true);
        }
        assert View() == Act(before, Call(calls[i]));
        assert CallActions(calls[i..])[1..] == CallActions(calls[i + 1..]);
      }
    }

    /** HandleRead with the message callback, which runs only if bytes have come in. */
    method ReadEvent(r: ReadOutcome, calls: seq<UserOp>)
      requires Valid() && Connections.Inv(View()) && state != Connecting
      requires r.Received? ==> open && |r.chunk| <= input.ScatterCapacity()
      modifies this, channel, input, input.buf, output, output.buf
      ensures Valid() && (output.buf == old(output.buf) || fresh(output.buf))
      ensures View() == Run(old(View()), ReadActions(r, calls))
    {
      ghost var s := View();
      ghost var rest := if r.Received? && r.chunk != [] then CallActions(calls) else [];
      HandleRead(r);
      StaleEventsAreHarmless(s, r, WriteWouldBlock, []);
      assert Run(s, [OnRead(r)]) == View();
      if r.Received? && |r.chunk| > 0 {
        MessageCallback(calls);
      }
      RunConcat(s, [OnRead(r)], rest);
    }

    /** Channel::HandleEvent with this connection's handlers installed. The event was reported earlier in
        this turn of the loop; interest may have been switched off since, but a connected one still
        wants to write (see ReportedWriteIsCurrent), and nothing can be read from a closed socket. */
    method HandleEvent(error: bool, hangup: bool, readable: bool, writable: bool, r: ReadOutcome,
                       calls: seq<UserOp>, w: WriteOutcome, meanwhile: seq<RemoteOp>)
      requires Valid() && Connections.Inv(View()) && state != Connecting
      requires writable && state == Connected ==> channel.writing
      requires r.Received? ==> open && |r.chunk| <= input.ScatterCapacity()
      modifies this, channel, input, input.buf, output, output.buf
      ensures Valid()
      ensures View() == Run(old(View()), Dispatch(error, hangup, readable, writable, r, calls, w, meanwhile))
    {
      ghost var s := View();
      StaleEventsAreHarmless(s, r, w, meanwhile);
      if error {
        HandleClose();
        HandleClose();
        assert Run(s, [OnClose, OnClose]) == Run(Act(s, OnClose), [OnClose]) by {
          assert [OnClose, OnClose][1..] == [OnClose];
        }
        return;
      }
      if hangup {
        HandleClose();
        return;
      }
      if readable {
        ReadEvent(r, calls);
      }
      ghost var first := if readable then ReadActions(r, calls) else [];
      assert View() == Run(s, first);
      ghost var mid := View();
      if writable {
        HandleWrite(w, meanwhile);
        if readable {
          ReadEventKeepsWriting(s, r, calls);
        }
        assert View() == Act(mid, OnWrite(w, meanwhile));
      }
      ghost var last := if writable then [OnWrite(w, meanwhile)] else [];
      assert View() == Run(mid, last);
      RunConcat(s, first, last);
    }
  }

  /** The guards of the machine on events lose nothing: a handler that runs for an event whose interest
      is gone does what the machine does, nothing. */
  lemma StaleEventsAreHarmless(s: Conn, r: ReadOutcome, w: WriteOutcome, meanwhile: seq<RemoteOp>)
    requires Connections.Inv(s) && s.state != Connecting
    ensures Connections.HandleClose(s) == Act(s, OnClose)
    ensures (r.Received? ==> s.open) ==> Connections.HandleRead(s, r) == Act(s, OnRead(r))
    ensures (s.state == Connected ==> s.writing) ==>
              Connections.HandleWrite(s, w, meanwhile) == Act(s, OnWrite(w, meanwhile))
  {
  }

  /** Write interest at the time of the poll is still there, or Connected has been left, when the
      handler runs; only a write takes it away. */
  lemma {:induction false} ReportedWriteIsCurrent(s: Conn, actions: seq<Action>)
    requires Connections.Inv(s) && (s.state == Connected ==> s.writing) && s.state != Connecting
    requires forall i :: 0 <= i < |actions| ==> !actions[i].OnWrite?
    ensures var t := Run(s, actions); t.state == Connected ==> t.writing
    decreases |actions|
  {
    if actions != [] {
      ActKeepsInv(s, actions[0]);
      StepKeepsWriting(s, actions[0]);
      ReportedWriteIsCurrent(Act(s, actions[0]), actions[1..]);
    }
  }

  lemma StepKeepsWriting(s: Conn, a: Action)
    requires Connections.Inv(s) && (s.state == Connected ==> s.writing) && s.state != Connecting && !a.OnWrite?
    ensures Act(s, a).state == Connected ==> Act(s, a).writing
  {
    if a.RunTask? && s.queue != [] {
      assert s.queue[0] in s.queue;
    } else if a.Remote? {
      hide Connections.Inv;
      RemoteStep(s, a.op);
    }
  }

  lemma {:induction false} RunConcat(s: Conn, a: seq<Action>, b: seq<Action>)
    ensures Run(s, a + b) == Run(Run(s, a), b)
    decreases |a|
  {
    if a == [] {
      assert a + b == b;
    } else {
      assert (a + b)[1..] == a[1..] + b;
      RunConcat(Act(s, a[0]), a[1..], b);
    }
  }

  lemma ReadKeepsWriting(s: Conn, r: ReadOutcome)
    requires s.state == Connected ==> s.writing
    ensures Act(s, OnRead(r)).state == Connected ==> Act(s, OnRead(r)).writing
  {
  }

  lemma ReadEventKeepsWriting(s: Conn, r: ReadOutcome, calls: seq<UserOp>)
    requires s.state == Connected ==> s.writing
    ensures var t := Run(s, ReadActions(r, calls)); t.state == Connected ==> t.writing
  {
    var rest := if r.Received? && r.chunk != [] then CallActions(calls) else [];
    ReadKeepsWriting(s, r);
    assert Run(s, [OnRead(r)]) == Act(s, OnRead(r));
    RunConcat(s, [OnRead(r)], rest);
    CallsKeepWriting(Act(s, OnRead(r)), calls);
  }

  /** Calls from a callback cannot switch write interest off without leaving Connected. */
  lemma {:induction false} CallsKeepWriting(s: Conn, calls: seq<UserOp>)
    requires s.state == Connected ==> s.writing
    ensures var t := Run(s, CallActions(calls)); t.state == Connected ==> t.writing
    decreases |calls|
  {
    if calls != [] {
      var a := Call(calls[0]);
      assert CallActions(calls)[1..] == CallActions(calls[1..]);
      CallsKeepWriting(Act(s, a), calls[1..]);
    }
  }
}
