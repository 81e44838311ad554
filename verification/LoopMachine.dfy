/** EventLoop under concurrency: the loop thread goes through its phases while other threads queue
    functors, add and cancel timers and ask it to quit. Each locked section, each write to the
    wakeup fd and each flag access is one step; any thread may step between two of them. */
module LoopMachine {
  import opened Bytes
  import opened TimerQueue

  type ThreadId = nat

  const LOOP_THREAD: ThreadId := 0

  datatype Phase =
    | Outside                                             // Loop not yet called, or it has returned
    | Deciding                                            // while (!m_quit)
    | Computing                                           // before GetPollTimeoutMs
    | Polling(since: int, timeoutMs: int)
    | Events(sawWakeup: bool)                             // handlers of the active channels
    | BeforeSwap                                          // m_callingPendingFunctors has been set
    | RunningFunctors
    | BeforeTimers
    | RunningTimers

  /** Where QueueInLoop was called from. */
  datatype Origin = FromOtherThread | FromEvents | FromFunctor | FromTimer | FromOutside

  /** `stamp` counts the polls begun before it was queued. */
  datatype Functor = Functor(id: nat, origin: Origin, stamp: nat)

  /** Why a thread is about to write to the wakeup fd. */
  datatype Reason = AfterQueue | AfterAdd | AfterCancel | AfterQuit

  datatype Loop = Loop(
    clock: int,
    timers: Timers,
    pending: seq<Functor>,
    batch: seq<Functor>,          // the vector swapped out by DoPendingFunctors
    token: nat,                   // counter of the wakeup fd
    wakers: map<ThreadId, Reason>,
    quit: bool,
    phase: Phase,
    // history
    polls: nat,
    queued: seq<Functor>,         // all functors ever queued, in the order of their locked pushes
    executed: seq<Functor>)

  const START := Loop(0, NO_TIMERS, [], [], 0, map[], false, Outside, 0, [], [])

  datatype Step =
    | Tick(now: int)
    | EnterLoop
    | Decide
    | Compute(heap: multiset<TimerId>)
    | PollReturns
    | DrainWakeup
    | EndEvents
    | Swap
    | RunFunctor
    | EndFunctors
    | TakeDue(heap: multiset<TimerId>, ids: seq<TimerId>)
    | FetchTimer
    | CallTimer
    | FinishTimer
    | EndTimers
    | QueueInLoop(thread: ThreadId)
    | AddTimer(thread: ThreadId, timer: NewTimer)
    | Cancel(thread: ThreadId, id: TimerId)
    | Quit(thread: ThreadId)
    | Wakeup(thread: ThreadId)

  /** m_callingPendingFunctors. */
  predicate Calling(s: Loop) {
    s.phase.BeforeSwap? || s.phase.RunningFunctors?
  }

  predicate InTimerCallback(s: Loop) {
    s.phase.RunningTimers? && s.timers.current.Some? && s.timers.current.value.stage == InCallback
  }

  /** Other threads may call at any time between two of their calls; the loop thread calls before
      and after Loop, and from event handlers, functors and timer callbacks. */
  predicate CanCall(s: Loop, thread: ThreadId) {
    && thread !in s.wakers
    && (thread == LOOP_THREAD ==>
          s.phase.Outside? || s.phase.Events? || s.phase.RunningFunctors? || InTimerCallback(s))
  }

  function OriginOf(s: Loop, thread: ThreadId): Origin {
    if thread != LOOP_THREAD then FromOtherThread
    else if s.phase.Outside? then FromOutside
    else if s.phase.Events? then FromEvents
    else if s.phase.RunningFunctors? then FromFunctor
    else FromTimer
  }

  /** The caller goes on to Wakeup unless it is the loop thread outside DoPendingFunctors. */
  function Waking(s: Loop, thread: ThreadId, why: Reason): map<ThreadId, Reason> {
    if thread != LOOP_THREAD || Calling(s) then s.wakers[thread := why] else s.wakers
  }

  /** The chosen wake time: the clock when the timeout was computed, plus the timeout. */
  function WakeTime(p: Phase): int
    requires p.Polling?
  {
    p.since + p.timeoutMs * MS
  }

  /** The guards: which steps are possible in which state. */
  ghost predicate Enabled(s: Loop, step: Step) {
    var loopFree := LOOP_THREAD !in s.wakers;
    var t := s.timers;
    match step
    case Tick(now) => now >= s.clock
    case EnterLoop => s.phase.Outside? && loopFree
    case Decide => s.phase.Deciding? && loopFree
    case Compute(heap) => s.phase.Computing? && loopFree && PurgesTo(t, heap) && Live(t) <= t.tasks.Keys
    case PollReturns => s.phase.Polling? && loopFree
    case DrainWakeup => s.phase == Events(true) && loopFree
    case EndEvents => s.phase.Events? && loopFree
    case Swap => s.phase.BeforeSwap? && loopFree
    case RunFunctor => s.phase.RunningFunctors? && loopFree && s.batch != []
    case EndFunctors => s.phase.RunningFunctors? && loopFree && s.batch == []
    case TakeDue(heap, ids) =>
      && s.phase.BeforeTimers? && loopFree && (forall id :: id in t.heap ==> id in t.tasks)
      && NotDue(t, s.clock, heap) && IsBatch(t, s.clock, ids)
    case FetchTimer =>
      s.phase.RunningTimers? && loopFree && t.current == None && t.ready != [] && t.ready[0] in t.tasks
    case CallTimer =>
      && s.phase.RunningTimers? && loopFree && t.current.Some? && t.current.value.stage == ToCall
      && t.current.value.id in t.tasks
    case FinishTimer =>
      && s.phase.RunningTimers? && loopFree && t.current.Some? && t.current.value.stage != ToCall
      && t.current.value.id in t.tasks
    case EndTimers => s.phase.RunningTimers? && loopFree && t.current == None && t.ready == []
    case QueueInLoop(thread) => CanCall(s, thread)
    case AddTimer(thread, timer) => CanCall(s, thread) && (timer.Every? ==> timer.called <= s.clock)
    case Cancel(thread, id) => CanCall(s, thread) && (id in t.timers ==> id in t.tasks)
    case Quit(thread) => CanCall(s, thread)
    case Wakeup(thread) => thread in s.wakers
  }

  ghost function Next(s: Loop, step: Step): Loop {
    if !Enabled(s, step) then s
    else match step
      case Tick(now) => s.(clock := now)
      case EnterLoop => s.(quit := false, phase := Deciding)
      case Decide => s.(phase := if s.quit then Outside else Computing)
      case Compute(heap) =>
        s.(timers := s.timers.(heap := heap),
           phase := Polling(s.clock, PollTimeoutMs(s.timers, s.clock)),
           polls := s.polls + 1)
      case PollReturns => s.(phase := Events(s.token > 0))
      case DrainWakeup => s.(token := 0)
      case EndEvents => s.(phase := BeforeSwap)
      case Swap => s.(batch := s.pending, pending := [], phase := RunningFunctors)
      case RunFunctor => s.(batch := s.batch[1..], executed := s.executed + [s.batch[0]])
      case EndFunctors => s.(phase := BeforeTimers)
      case TakeDue(heap, ids) => s.(timers := TakeBatch(s.timers, heap, ids), phase := RunningTimers)
      case FetchTimer => s.(timers := Fetch(s.timers))
      case CallTimer => s.(timers := StartCallback(s.timers, s.clock))
      case FinishTimer => s.(timers := Finish(s.timers, s.clock))
      case EndTimers => s.(phase := Deciding)
      case QueueInLoop(thread) =>
        var f := Functor(|s.queued|, OriginOf(s, thread), s.polls);
        s.(pending := s.pending + [f], queued := s.queued + [f], wakers := Waking(s, thread, AfterQueue))
      case AddTimer(thread, timer) =>
        s.(timers := Add(s.timers, NewTask(timer)), wakers := Waking(s, thread, AfterAdd))
      case Cancel(thread, id) =>
        s.(timers := CancelTimer(s.timers, id),
           wakers := if id in s.timers.timers && thread != LOOP_THREAD then s.wakers[thread := AfterCancel]
                     else s.wakers)
      case Quit(thread) =>
        s.(quit := true, wakers := if thread != LOOP_THREAD then s.wakers[thread := AfterQuit] else s.wakers)
      case Wakeup(thread) => s.(token := s.token + 1, wakers := s.wakers - {thread})
  }

  ghost function Run(s: Loop, steps: seq<Step>): Loop
    decreases |steps|
  {
    if steps == [] then s else Run(Next(s, steps[0]), steps[1..])
  }

  // ---------- What every step keeps ----------

  /** A wakeup is on the fd, or a thread that acted for this reason is about to put it there. */
  ghost predicate WakeComing(s: Loop, why: Reason) {
    s.token > 0 || exists thread :: thread in s.wakers && s.wakers[thread] == why
  }

  /** The poll ends no later than a live timer is due, or returns at once. */
  ghost predicate InTimeFor(s: Loop, id: TimerId)
    requires s.phase.Polling?
  {
    id in Live(s.timers) && id in s.timers.tasks ==>
      WakeTime(s.phase) <= s.timers.tasks[id].expire || s.phase.timeoutMs == 0
  }

  ghost predicate TimersCovered(s: Loop)
    requires s.phase.Polling?
  {
    forall id :: InTimeFor(s, id)
  }

  ghost predicate SwapAhead(s: Loop) {
    s.phase.Events? || s.phase.BeforeSwap?
  }

  /** How a functor in m_pendingFunctors relates to the loop. */
  ghost predicate FunctorOk(s: Loop, f: Functor) {
    && f.stamp <= s.polls <= f.stamp + 1
    && (s.phase.Polling? || SwapAhead(s) || f.stamp == s.polls)
    && (f.origin == FromEvents ==> SwapAhead(s))
    && (f.origin == FromTimer || f.origin == FromOutside ==> s.phase.Polling? ==> f.stamp + 1 == s.polls)
    && (f.origin == FromOtherThread || f.origin == FromFunctor ==> SwapAhead(s) || WakeComing(s, AfterQueue))
  }

  ghost predicate QueueInv(s: Loop) {
    && s.queued == s.executed + s.batch + s.pending
    && (s.batch != [] ==> s.phase.RunningFunctors?)
    && (forall f :: f in s.pending ==> FunctorOk(s, f))
  }

  ghost predicate PhaseInv(s: Loop) {
    && (!s.phase.RunningTimers? ==> s.timers.ready == [] && s.timers.current == None)
    && (s.phase.Polling? ==>
          && 0 <= s.phase.timeoutMs <= MAX_WAIT_MS && s.phase.since <= s.clock
          && (TimersCovered(s) || WakeComing(s, AfterAdd)))
    && ((s.phase.Computing? || s.phase.Polling?) && s.quit ==> WakeComing(s, AfterQuit))
  }

  ghost predicate Inv(s: Loop) {
    TimerInv(s.timers, s.clock) && QueueInv(s) && PhaseInv(s)
  }

  lemma TimersKept(s: Loop, step: Step)
    requires Inv(s)
    ensures TimerInv(Next(s, step).timers, Next(s, step).clock)
  {
    hide TimerInv, PurgesTo, NotDue, IsBatch, Live, QueueInv;
    if Enabled(s, step) {
      match step
      case Tick(now) => ClockKeepsInv(s.timers, s.clock, now);
      case Compute(heap) => PurgeKeepsInv(s.timers, heap, s.clock);
      case TakeDue(heap, ids) => BatchKeepsInv(s.timers, heap, ids, s.clock);
      case FetchTimer => FetchKeepsInv(s.timers, s.clock);
      case CallTimer => StartKeepsInv(s.timers, s.clock);
      case FinishTimer => FinishKeepsInv(s.timers, s.clock);
      case AddTimer(_, timer) => AddKeepsInv(s.timers, NewTask(timer), s.clock);
      case Cancel(_, id) => CancelKeepsInv(s.timers, id, s.clock);
      case _ =>
    }
  }

  lemma WakeKept(s: Loop, step: Step, why: Reason)
    requires WakeComing(s, why) && (step == DrainWakeup ==> !s.phase.Events?)
    ensures WakeComing(Next(s, step), why)
  {
    hide PurgesTo, NotDue, IsBatch, Live, NewTask;
    var u := Next(s, step);
    if s.token == 0 {
      var thread :| thread in s.wakers && s.wakers[thread] == why;
      if step != Wakeup(thread) {
        assert thread in u.wakers && u.wakers[thread] == why;
      }
    }
  }

  lemma FifoKept(s: Loop, step: Step)
    requires Inv(s)
    ensures var u := Next(s, step);
            u.queued == u.executed + u.batch + u.pending && (u.batch != [] ==> u.phase.RunningFunctors?)
  {
    hide TimerInv, PurgesTo, NotDue, IsBatch, Live, NewTask, FunctorOk, TimersCovered, WakeComing, PollTimeoutMs,
      Fetch, StartCallback, Finish, Add, CancelTimer, TakeBatch, Waking;
    var u := Next(s, step);
    if Enabled(s, step) {
      match step
      case RunFunctor => assert s.batch == [s.batch[0]] + s.batch[1..];
      case Swap => assert s.executed + [] + s.pending == s.executed + s.pending + [];
      case QueueInLoop(_) =>
        var f := Functor(|s.queued|, OriginOf(s, step.thread), s.polls);
        assert (s.executed + s.batch + s.pending) + [f] == s.executed + s.batch + (s.pending + [f]);
      case _ =>
    }
  }

  lemma FunctorKept(s: Loop, step: Step, f: Functor)
    requires FunctorOk(s, f)
    ensures step != Swap ==> FunctorOk(Next(s, step), f)
  {
    hide PurgesTo, NotDue, IsBatch, Live, NewTask, WakeComing, PollTimeoutMs;
    if WakeComing(s, AfterQueue) && !s.phase.Events? {
      WakeKept(s, step, AfterQueue);
    }
  }

  lemma NewFunctorOk(s: Loop, thread: ThreadId)
    requires CanCall(s, thread)
    ensures FunctorOk(Next(s, QueueInLoop(thread)), Functor(|s.queued|, OriginOf(s, thread), s.polls))
  {
    var u := Next(s, QueueInLoop(thread));
    if thread != LOOP_THREAD || s.phase.RunningFunctors? {
      assert thread in u.wakers && u.wakers[thread] == AfterQueue;
    }
  }

  lemma QueueKept(s: Loop, step: Step)
    requires Inv(s)
    ensures QueueInv(Next(s, step))
  {
    hide TimerInv, PurgesTo, NotDue, IsBatch, Live, NewTask, FunctorOk, TimersCovered, WakeComing, PollTimeoutMs;
    var u := Next(s, step);
    FifoKept(s, step);
    forall f | f in u.pending
      ensures FunctorOk(u, f)
    {
      if f in s.pending {
        FunctorKept(s, step, f);
      } else {
        NewFunctorOk(s, step.thread);
      }
    }
  }

  lemma PollCovers(s: Loop, heap: multiset<TimerId>)
    requires TimerInv(s.timers, s.clock) && Enabled(s, Compute(heap))
    ensures TimersCovered(Next(s, Compute(heap)))
    ensures 0 <= PollTimeoutMs(s.timers, s.clock) <= MAX_WAIT_MS
  {
    var u := Next(s, Compute(heap));
    PurgeKeepsInv(s.timers, heap, s.clock);
    assert Live(u.timers) == Live(s.timers);
    forall id
      ensures InTimeFor(u, id)
    {
      if id in Live(s.timers) {
        var e := Earliest(s.timers.tasks, Live(s.timers));
        assert e <= s.timers.tasks[id].expire;
        assert (e - s.clock) / MS * MS <= e - s.clock;
      }
    }
  }

  /** While the loop polls, only an addition can put a live timer before the chosen wake time. */
  lemma CoverKept(s: Loop, step: Step)
    requires Inv(s) && s.phase.Polling? && Next(s, step).phase.Polling?
    requires step.AddTimer? ==> !Enabled(s, step)
    requires TimersCovered(s)
    ensures TimersCovered(Next(s, step))
  {
    hide TimerInv, PurgesTo, NotDue, IsBatch, QueueInv, FunctorOk, WakeComing, PollTimeoutMs;
    var u := Next(s, step);
    forall id
      ensures InTimeFor(u, id)
    {
      assert InTimeFor(s, id);
    }
  }

  lemma PhaseKept(s: Loop, step: Step)
    requires Inv(s)
    ensures PhaseInv(Next(s, step))
  {
    hide TimerInv, PurgesTo, NotDue, IsBatch, Live, NewTask, QueueInv, TimersCovered, PollTimeoutMs;
    var u := Next(s, step);
    if u.phase.Polling? {
      if s.phase.Polling? {
        if step.AddTimer? && Enabled(s, step) {
          assert step.thread in u.wakers && u.wakers[step.thread] == AfterAdd;
        } else if WakeComing(s, AfterAdd) {
          WakeKept(s, step, AfterAdd);
        } else {
          CoverKept(s, step);
        }
      } else {
        PollCovers(s, step.heap);
      }
    }
    if (u.phase.Computing? || u.phase.Polling?) && u.quit {
      if (s.phase.Computing? || s.phase.Polling?) && s.quit {
        WakeKept(s, step, AfterQuit);
      } else {
        assert step.Quit? && step.thread in u.wakers && u.wakers[step.thread] == AfterQuit;
      }
    }
  }

  lemma NextKeepsInv(s: Loop, step: Step)
    requires Inv(s)
    ensures Inv(Next(s, step))
  {
    hide TimerInv, QueueInv, PhaseInv, Next;
    TimersKept(s, step);
    QueueKept(s, step);
    PhaseKept(s, step);
  }
}
