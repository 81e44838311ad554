/** What holds in every reachable state and along every run of the event loop, whatever the
    interleaving of the loop thread with the threads that use it. */
module LoopRuns {
  import opened Bytes
  import opened TimerQueue
  import opened LoopMachine

  lemma {:induction false} RunKeepsInv(s: Loop, steps: seq<Step>)
    requires Inv(s)
    ensures Inv(Run(s, steps))
    decreases |steps|
  {
    hide Inv, Next;
    if steps != [] {
      NextKeepsInv(s, steps[0]);
      RunKeepsInv(Next(s, steps[0]), steps[1..]);
    }
  }

  lemma ReachableInv(steps: seq<Step>)
    ensures Inv(Run(START, steps))
  {
    forall id
      ensures TaskOk(NO_TIMERS, id, 0)
    {
    }
    RunKeepsInv(START, steps);
  }

  // ---------- Sleeping and waking ----------

  /** From computing the timeout to the end of the poll, the wake time is no later than any live
      expiry, or the poll does not block at all, or a wakeup has been written, or a thread that has
      added a timer is about to write one. */
  lemma NoTimerSleptPast(steps: seq<Step>)
    ensures var s := Run(START, steps);
            s.phase.Polling? ==>
              || (forall id :: id in Live(s.timers) && id in s.timers.tasks ==>
                    WakeTime(s.phase) <= s.timers.tasks[id].expire)
              || s.phase.timeoutMs == 0
              || s.token > 0
              || (exists thread :: thread in s.wakers && s.wakers[thread] == AfterAdd)
  {
    ReachableInv(steps);
    var s := Run(START, steps);
    if s.phase.Polling? && TimersCovered(s) && s.phase.timeoutMs != 0 {
      forall id | id in Live(s.timers) && id in s.timers.tasks
        ensures WakeTime(s.phase) <= s.timers.tasks[id].expire
      {
        assert InTimeFor(s, id);
      }
    }
  }

  /** If the loop blocks with functors pending and no wakeup written or about to be, each of them was
      queued by one of its own timer callbacks since the last poll, or on its thread outside Loop with
      no poll since; and the poll is limited to ten seconds. */
  lemma NoLostWakeup(steps: seq<Step>)
    ensures var s := Run(START, steps);
            && s.phase.Polling? && s.token == 0
            && (forall thread :: thread in s.wakers ==> s.wakers[thread] != AfterQueue) ==>
              && (forall f :: f in s.pending ==>
                    (f.origin == FromTimer || f.origin == FromOutside) && f.stamp + 1 == s.polls)
              && s.phase.timeoutMs <= 10_000 && WakeTime(s.phase) <= s.phase.since + 10_000_000_000
  {
    ReachableInv(steps);
    var s := Run(START, steps);
    if s.phase.Polling? {
      forall f | f in s.pending
        ensures FunctorOk(s, f)
      {
      }
    }
  }

  /** Nothing is on its way that would end a poll early. */
  ghost predicate Quiet(s: Loop) {
    s.token == 0 && s.wakers == map[]
  }

  /** The loop blocks with the functor pending. */
  ghost predicate SleepsOn(s: Loop, f: Functor) {
    s.phase.Polling? && Quiet(s) && f in s.pending
  }

  /** The functor that a call of QueueInLoop pushes. */
  function Pushed(s: Loop, thread: ThreadId): Functor {
    Functor(|s.queued|, OriginOf(s, thread), s.polls)
  }

  /** Some run after the call gets there. */
  ghost predicate CanBeSleptOn(s: Loop, thread: ThreadId) {
    exists steps :: SleepsOn(Run(Next(s, QueueInLoop(thread)), steps), Pushed(s, thread))
  }

  /** A functor that has been queued is not slept on: it is gone, will be swapped out before the next
      poll, or that poll is ended by a wakeup. */
  ghost predicate Covered(s: Loop, f: Functor) {
    f.id < |s.queued| && (f in s.pending ==> SwapAhead(s) || !Quiet(s))
  }

  lemma CoveredStep(s: Loop, step: Step, f: Functor)
    requires Covered(s, f)
    ensures Covered(Next(s, step), f)
  {
    hide PurgesTo, NotDue, IsBatch, Live, NewTask, PollTimeoutMs, Fetch, StartCallback, Finish, Add, CancelTimer,
      TakeBatch;
  }

  lemma {:induction false} CoveredRun(s: Loop, steps: seq<Step>, f: Functor)
    requires Covered(s, f)
    ensures !SleepsOn(Run(s, steps), f)
    decreases |steps|
  {
    hide Next;
    if steps != [] {
      CoveredStep(s, steps[0], f);
      CoveredRun(Next(s, steps[0]), steps[1..], f);
    }
  }

  lemma {:induction false} RunMore(s: Loop, a: seq<Step>, b: seq<Step>)
    ensures Run(s, a + b) == Run(Run(s, a), b)
    decreases |a|
  {
    hide Next;
    if a == [] {
      assert a + b == b;
    } else {
      assert (a + b)[1..] == a[1..] + b;
      RunMore(Next(s, a[0]), a[1..], b);
    }
  }

  lemma RunAfter(s: Loop, step: Step, steps: seq<Step>)
    ensures Run(s, [step] + steps) == Run(Next(s, step), steps)
  {
    hide Next;
    assert ([step] + steps)[1..] == steps;
  }

  /** The functor stays pending while the loop goes its way and no other thread steps. */
  ghost predicate Waits(s: Loop, f: Functor) {
    Inv(s) && Quiet(s) && f in s.pending
  }

  /** The next step of the loop inside ProcessDelayedTasks. */
  function TimerStep(t: Timers): Step {
    match t.current
    case Some(c) => if c.stage == ToCall then CallTimer else FinishTimer
    case None => if t.ready == [] then EndTimers else FetchTimer
  }

  /** How many of them are left. */
  function TimerWork(t: Timers): nat {
    3 * |t.ready| + match t.current
                    case Some(c) => if c.stage == ToCall then 2 else 1
                    case None => 0
  }

  lemma TimerStepEnabled(s: Loop)
    requires Inv(s) && s.phase.RunningTimers? && LOOP_THREAD !in s.wakers
    ensures Enabled(s, TimerStep(s.timers))
  {
    assert forall id :: Located(s.timers, id) ==> id in s.timers.tasks;
    if s.timers.current.Some? {
      assert Located(s.timers, s.timers.current.value.id);
    } else if s.timers.ready != [] {
      assert Located(s.timers, s.timers.ready[0]);
    }
  }

  lemma TimerStepWorks(s: Loop)
    requires s.phase.RunningTimers? && Enabled(s, TimerStep(s.timers))
    ensures var u := Next(s, TimerStep(s.timers));
            && u == s.(timers := u.timers, phase := u.phase)
            && (if TimerStep(s.timers).EndTimers? then u.phase.Deciding?
                else u.phase.RunningTimers? && TimerWork(u.timers) < TimerWork(s.timers))
  {
    hide PurgesTo, NotDue, IsBatch, Live, NewTask, PollTimeoutMs;
  }

  /** The rest of the batch is worked off, */
  lemma {:induction false} FinishBatch(s: Loop, f: Functor) returns (steps: seq<Step>)
    requires Waits(s, f) && s.phase.RunningTimers?
    ensures Waits(Run(s, steps), f) && Run(s, steps).phase.Deciding?
    decreases TimerWork(s.timers)
  {
    hide Inv, Next, Enabled;
    var step := TimerStep(s.timers);
    TimerStepEnabled(s);
    TimerStepWorks(s);
    NextKeepsInv(s, step);
    if step.EndTimers? {
      steps := [];
    } else {
      steps := FinishBatch(Next(s, step), f);
    }
    RunAfter(s, step, steps);
    steps := [step] + steps;
  }

  /** and the loop polls; if it is to quit, Loop is called once more. */
  lemma Sleeps(s: Loop, f: Functor) returns (steps: seq<Step>)
    requires Waits(s, f) && (s.phase.Outside? || (s.phase.Deciding? && !s.quit))
    ensures SleepsOn(Run(s, steps), f)
  {
    hide Inv, PurgesTo, PollTimeoutMs, Live;
    var s1 := if s.phase.Outside? then Next(s, EnterLoop) else s;
    NextKeepsInv(s, EnterLoop);
    var s2 := Next(s1, Decide);
    NextKeepsInv(s1, Decide);
    assert s2.phase.Computing? && Waits(s2, f);
    var heap := s2.timers.heap;
    PollSleeps(s2, f);
    hide Next, Enabled;
    RunAfter(s2, Compute(heap), []);
    RunAfter(s1, Decide, [Compute(heap)]);
    steps := [Decide] + [Compute(heap)];
    if s.phase.Outside? {
      RunAfter(s, EnterLoop, steps);
      steps := [EnterLoop] + steps;
    }
    assert [Compute(heap)] + [] == [Compute(heap)];
  }

  lemma PollSleeps(s: Loop, f: Functor)
    requires Waits(s, f) && s.phase.Computing?
    ensures SleepsOn(Next(s, Compute(s.timers.heap)), f)
  {
    hide PollTimeoutMs;
    QueueKnown(s.timers, s.clock);
  }

  lemma FromDeciding(s: Loop, f: Functor) returns (steps: seq<Step>)
    requires Waits(s, f) && s.phase.Deciding?
    ensures SleepsOn(Run(s, steps), f)
  {
    if s.quit {
      NextKeepsInv(s, Decide);
      hide Inv;
      assert Waits(Next(s, Decide), f);
      steps := Sleeps(Next(s, Decide), f);
      RunAfter(s, Decide, steps);
      steps := [Decide] + steps;
    } else {
      steps := Sleeps(s, f);
    }
  }

  /** A functor that has just been queued, by any thread, can be slept on exactly if it was the loop's
      own thread, outside Loop or in a timer callback, with no wakeup written or about to be. */
  lemma SleptOnIff(s: Loop, thread: ThreadId)
    requires Inv(s) && CanCall(s, thread)
    ensures CanBeSleptOn(s, thread) <==>
              thread == LOOP_THREAD && (s.phase.Outside? || InTimerCallback(s)) && Quiet(s)
  {
    var t, f := Next(s, QueueInLoop(thread)), Pushed(s, thread);
    NextKeepsInv(s, QueueInLoop(thread));
    assert t.pending == s.pending + [f] && t.queued == s.queued + [f];
    if thread == LOOP_THREAD && (s.phase.Outside? || InTimerCallback(s)) && Quiet(s) {
      hide Inv;
      assert t.pending[|s.pending|] == f;
      var steps := SleepRun(t, f);
      assert SleepsOn(Run(t, steps), f);
    } else {
      assert Covered(t, f);
      forall steps
        ensures !SleepsOn(Run(t, steps), f)
      {
        CoveredRun(t, steps, f);
      }
    }
  }

  lemma SleepRun(t: Loop, f: Functor) returns (steps: seq<Step>)
    requires Waits(t, f) && (t.phase.Outside? || t.phase.RunningTimers?)
    ensures SleepsOn(Run(t, steps), f)
  {
    hide Inv, Next;
    if t.phase.Outside? {
      steps := Sleeps(t, f);
    } else {
      var batch := FinishBatch(t, f);
      var rest := FromDeciding(Run(t, batch), f);
      RunMore(t, batch, rest);
      steps := batch + rest;
    }
  }

  /** A one-shot that is due at once, added before Loop. */
  const DUE_NOW := Timers(map[1 := OneShot(0, true)], multiset{1}, {1}, 2, [], None, 0, [])

  /** A run to the end of the first poll, */
  lemma RunToFirstPoll() returns (steps: seq<Step>)
    ensures Run(START, steps) == START.(timers := DUE_NOW, phase := Events(false), polls := 1)
  {
    var task := At(0, true);
    steps := [AddTimer(LOOP_THREAD, task), EnterLoop, Decide, Compute(multiset{1}), PollReturns];
    var s1 := START.(timers := DUE_NOW);
    assert Next(START, steps[0]) == s1 by {
      assert Add(NO_TIMERS, NewTask(task)) == DUE_NOW;
    }
    hide NewTask, PollTimeoutMs, PurgesTo, Live;
    assert Next(Next(s1, EnterLoop), Decide) == s1.(phase := Computing);
    FirstPoll(s1.(phase := Computing));
    hide Next;
    RunFive(START, steps[0], steps[1], steps[2], steps[3], steps[4]);
  }

  lemma FirstPoll(s: Loop)
    requires s == START.(timers := DUE_NOW, phase := Computing)
    ensures Next(Next(s, Compute(multiset{1})), PollReturns) == s.(phase := Events(false), polls := 1)
  {
  }

  /** from there to the timers, */
  lemma PassFunctors(s: Loop)
    requires s.phase.Events? && Quiet(s) && s.pending == [] && s.batch == []
    ensures Next(Next(Next(s, EndEvents), Swap), EndFunctors) == s.(phase := BeforeTimers)
  {
  }

  lemma DueNowBatch()
    ensures NotDue(DUE_NOW, 0, multiset{}) && IsBatch(DUE_NOW, 0, [1])
  {
  }

  /** and into the callback. */
  lemma EnterCallback(s: Loop)
    requires s.phase.BeforeTimers? && Quiet(s) && s.timers == DUE_NOW && s.clock == 0 && !s.quit
    ensures var u := Next(Next(Next(s, TakeDue(multiset{}, [1])), FetchTimer), CallTimer);
            InTimerCallback(u) && Quiet(u)
  {
    hide NotDue, IsBatch;
    DueNowBatch();
    var s1 := Next(s, TakeDue(multiset{}, [1]));
    assert s1 == s.(timers := TakeBatch(DUE_NOW, multiset{}, [1]), phase := RunningTimers);
    CallFirst(s1);
  }

  lemma CallFirst(s: Loop)
    requires s.phase.RunningTimers? && Quiet(s) && !s.quit && s.timers == TakeBatch(DUE_NOW, multiset{}, [1])
    ensures var u := Next(Next(s, FetchTimer), CallTimer);
            InTimerCallback(u) && Quiet(u)
  {
  }

  lemma RunIntoCallback() returns (steps: seq<Step>)
    ensures var u := Run(START, steps);
            InTimerCallback(u) && Quiet(u)
  {
    var poll := RunToFirstPoll();
    var s := Run(START, poll);
    PassFunctors(s);
    EnterCallback(s.(phase := BeforeTimers));
    hide Next, Enabled;
    var rest := [EndEvents, Swap, EndFunctors, TakeDue(multiset{}, [1]), FetchTimer];
    RunFive(s, rest[0], rest[1], rest[2], rest[3], rest[4]);
    RunMore(START, poll, rest);
    RunMore(START, poll + rest, [CallTimer]);
    steps := poll + rest + [CallTimer];
    assert [CallTimer][1..] == [];
    assert Run(Run(s, rest), [CallTimer]) == Run(Next(Run(s, rest), CallTimer), []);
  }

  /** Both cases do arise in runs from the very start. */
  lemma BothCasesArise() returns (before: seq<Step>)
    ensures CanBeSleptOn(START, LOOP_THREAD)
    ensures InTimerCallback(Run(START, before)) && CanBeSleptOn(Run(START, before), LOOP_THREAD)
  {
    hide Next, Inv, CanBeSleptOn;
    before := RunIntoCallback();
    ReachableInv(before);
    SleptOnIff(Run(START, before), LOOP_THREAD);
    ReachableInv([]);
    SleptOnIff(START, LOOP_THREAD);
  }

  lemma RunFour(s: Loop, a: Step, b: Step, c: Step, d: Step)
    ensures Run(s, [a, b, c, d]) == Next(Next(Next(Next(s, a), b), c), d)
  {
    hide Next;
    assert [a, b, c, d][1..] == [b, c, d] && [b, c, d][1..] == [c, d];
    assert [c, d][1..] == [d] && [d][1..] == [];
    var s2 := Next(Next(s, a), b);
    assert Run(s, [a, b, c, d]) == Run(s2, [c, d]);
    assert Run(Next(s2, c), [d]) == Run(Next(Next(s2, c), d), []);
  }

  lemma RunFive(s: Loop, a: Step, b: Step, c: Step, d: Step, e: Step)
    ensures Run(s, [a, b, c, d, e]) == Next(Next(Next(Next(Next(s, a), b), c), d), e)
  {
    hide Next;
    assert [a, b, c, d, e][1..] == [b, c, d, e];
    RunFour(Next(s, a), b, c, d, e);
  }

  /** A request to quit by another thread cannot be slept through. */
  lemma QuitNotLost(steps: seq<Step>)
    ensures var s := Run(START, steps);
            s.phase.Polling? && s.quit ==>
              s.token > 0 || exists thread :: thread in s.wakers && s.wakers[thread] == AfterQuit
  {
    ReachableInv(steps);
  }

  // ---------- Functors ----------

  /** Functors run in the order of their pushes, each exactly once: what has run, the rest of the
      swapped-out vector and the queue make up the history. None waits for more than one poll. */
  lemma FifoExactlyOnce(steps: seq<Step>)
    ensures var s := Run(START, steps);
            && s.queued == s.executed + s.batch + s.pending
            && (forall f :: f in s.pending ==> f.stamp <= s.polls <= f.stamp + 1)
            && (s.phase.BeforeTimers? ==> s.batch == [])
  {
    ReachableInv(steps);
    var s := Run(START, steps);
    forall f | f in s.pending
      ensures FunctorOk(s, f)
    {
    }
  }

  // ---------- Timers ----------

  function Count(b: bool): nat {
    if b then 1 else 0
  }

  /** Each id in m_timers sits exactly once in the queue, the rest of the batch or in the loop's
      hands, nothing sits twice, and what sits there is cancelled iff its id has left m_timers. */
  lemma TimerBookkeeping(steps: seq<Step>, id: TimerId)
    ensures var t := Run(START, steps).timers;
            var places := t.heap[id] + multiset(t.ready)[id] + Count(IsCurrent(t, id));
            && places <= 1
            && (id in t.timers ==> places == 1)
            && (places == 1 ==> id in t.tasks && (t.tasks[id].cancelled <==> id !in t.timers))
  {
    ReachableInv(steps);
    var s := Run(START, steps);
    assert TaskOk(s.timers, id, s.clock);
    DistinctCounts(s.timers.ready, id);
  }

  lemma {:induction false} DistinctCounts(ids: seq<TimerId>, id: TimerId)
    requires Distinct(ids)
    ensures multiset(ids)[id] == Count(id in ids)
  {
    if ids != [] {
      DistinctCounts(ids[1..], id);
      assert ids == [ids[0]] + ids[1..];
      if ids[0] == id {
        assert id !in ids[1..];
      }
    }
  }

  /** A one-shot timer's callback starts at most once in a run. */
  lemma OneShotAtMostOnce(steps: seq<Step>, id: TimerId)
    ensures var t := Run(START, steps).timers;
            id in t.tasks && !t.tasks[id].repeat ==> StartsOf(t.starts, id) <= 1
  {
    ReachableInv(steps);
    var s := Run(START, steps);
    assert TaskOk(s.timers, id, s.clock);
  }

  /** No callback starts before its timer is due; within a batch they start by expiry; and the k-th
      start of a periodic timer is at least k intervals after RunEvery was called. */
  lemma TimerTiming(steps: seq<Step>, i: nat)
    ensures var t := Run(START, steps).timers;
            i < |t.starts| ==>
              var start := t.starts[i];
              var k := StartsOf(t.starts[..i + 1], start.id);
              && start.at >= start.expiry
              && start.id in t.tasks
              && (t.tasks[start.id].repeat ==>
                    && t.tasks[start.id].interval >= 1_000_000
                    && start.at >= t.tasks[start.id].created + k * t.tasks[start.id].interval)
              && (forall j :: i < j < |t.starts| && t.starts[j].batch == start.batch ==>
                    start.expiry <= t.starts[j].expiry)
  {
    ReachableInv(steps);
    var s := Run(START, steps);
    var t := s.timers;
    if i < |t.starts| {
      assert GoodStart(t.tasks, t.starts, i);
      assert TaskOk(t, t.starts[i].id, s.clock);
    }
  }

  // ---------- Cancel ----------

  /** The one start that a cancelled task may still have ahead: the loop has tested its flag already. */
  function Imminent(t: Timers, id: TimerId): nat {
    if t.current == Some(Current(id, ToCall)) then 1 else 0
  }

  /** From `t` to `u` a cancelled task stays cancelled and gains no start but the imminent one. */
  ghost predicate StaysCancelled(t: Timers, u: Timers, id: TimerId)
    requires id in t.tasks
  {
    && id in u.tasks && u.tasks[id].cancelled
    && t.tasks[id].runs <= u.tasks[id].runs
    && u.tasks[id].runs + Imminent(u, id) <= t.tasks[id].runs + Imminent(t, id)
  }

  lemma CancelledThroughBatch(t: Timers, id: TimerId, now: int)
    requires id in t.tasks && t.tasks[id].cancelled
    ensures t.ready != [] && t.ready[0] in t.tasks && t.current == None ==> StaysCancelled(t, Fetch(t), id)
    ensures t.current.Some? && t.current.value.id in t.tasks ==>
              && (t.current.value.stage == ToCall ==> StaysCancelled(t, StartCallback(t, now), id))
              && StaysCancelled(t, Finish(t, now), id)
  {
  }

  lemma CancelledThroughCalls(t: Timers, id: TimerId, task: TimerTask, other: TimerId)
    requires id in t.tasks && t.tasks[id].cancelled && id < t.nextId
    ensures StaysCancelled(t, Add(t, task), id)
    ensures (other in t.timers ==> other in t.tasks) ==> StaysCancelled(t, CancelTimer(t, other), id)
  {
  }

  lemma CancelledStep(s: Loop, step: Step, id: TimerId)
    requires TimerInv(s.timers, s.clock)
    requires id in s.timers.tasks && s.timers.tasks[id].cancelled
    ensures StaysCancelled(s.timers, Next(s, step).timers, id)
  {
    assert id < s.timers.nextId by {
      assert TaskOk(s.timers, id, s.clock);
    }
    hide TimerInv, PurgesTo, NotDue, IsBatch, Live, NewTask, PollTimeoutMs, Fetch, StartCallback, Finish, Add,
      CancelTimer, Waking, OriginOf;
    CancelledThroughBatch(s.timers, id, s.clock);
    if Enabled(s, step) {
      match step
      case AddTimer(_, timer) => CancelledThroughCalls(s.timers, id, NewTask(timer), 0);
      case Cancel(_, other) => CancelledThroughCalls(s.timers, id, s.timers.tasks[id], other);
      case _ =>
    }
  }

  lemma {:induction false} CancelledRun(s: Loop, steps: seq<Step>, id: TimerId)
    requires Inv(s) && id in s.timers.tasks && s.timers.tasks[id].cancelled
    ensures var t, u := s.timers, Run(s, steps).timers;
            && id in u.tasks
            && t.tasks[id].runs <= u.tasks[id].runs <= t.tasks[id].runs + Imminent(t, id)
    decreases |steps|
  {
    hide Next, Inv, TimerInv;
    if steps != [] {
      assert TimerInv(s.timers, s.clock) by {
        InvGivesTimers(s);
      }
      CancelledStep(s, steps[0], id);
      NextKeepsInv(s, steps[0]);
      CancelledRun(Next(s, steps[0]), steps[1..], id);
    }
  }

  lemma InvGivesTimers(s: Loop)
    requires Inv(s)
    ensures TimerInv(s.timers, s.clock)
  {
  }

  /** After a Cancel on the loop thread has returned true, the callback never starts again. After one
      on another thread it starts at most once more, and only if the loop had already tested the flag. */
  lemma CancelIsFinal(before: seq<Step>, thread: ThreadId, id: TimerId, after: seq<Step>)
    requires var s := Run(START, before); CanCall(s, thread) && id in s.timers.timers
    ensures var s := Run(START, before);
            var u := Run(Next(s, Cancel(thread, id)), after);
            && id in s.timers.tasks && id in u.timers.tasks
            && u.timers.tasks[id].runs <= s.timers.tasks[id].runs + Imminent(s.timers, id)
            && (thread == LOOP_THREAD ==> u.timers.tasks[id].runs == s.timers.tasks[id].runs)
            && StartsOf(u.timers.starts, id) == u.timers.tasks[id].runs
  {
    ReachableInv(before);
    var s := Run(START, before);
    assert TaskOk(s.timers, id, s.clock);
    var step := Cancel(thread, id);
    NextKeepsInv(s, step);
    CancelledRun(Next(s, step), after, id);
    RunKeepsInv(Next(s, step), after);
  }

  /** Whether a timer's callback starts in some run from here. */
  ghost predicate CanStart(s: Loop, id: TimerId)
    requires id in s.timers.tasks
  {
    exists steps :: StartsMore(s, Run(s, steps), id)
  }

  ghost predicate StartsMore(s: Loop, u: Loop, id: TimerId)
    requires id in s.timers.tasks
  {
    id in u.timers.tasks && u.timers.tasks[id].runs > s.timers.tasks[id].runs
  }

  /** And if it had, it does start in some run. */
  lemma StartsAfterCancelIff(before: seq<Step>, thread: ThreadId, id: TimerId)
    requires var s := Run(START, before); CanCall(s, thread) && id in s.timers.timers
    ensures var s := Run(START, before);
            var t := Next(s, Cancel(thread, id));
            && id in t.timers.tasks
            && (CanStart(t, id) <==> s.timers.current == Some(Current(id, ToCall)))
  {
    ReachableInv(before);
    var s := Run(START, before);
    var t := Next(s, Cancel(thread, id));
    assert TaskOk(s.timers, id, s.clock);
    NextKeepsInv(s, Cancel(thread, id));
    assert t.timers.current == s.timers.current && t.timers.tasks[id].cancelled;
    if s.timers.current == Some(Current(id, ToCall)) {
      var steps := CallNow(t, id);
      assert StartsMore(t, Run(t, steps), id);
    } else {
      hide Inv, Next;
      forall steps
        ensures !StartsMore(t, Run(t, steps), id)
      {
        CancelledRun(t, steps, id);
      }
    }
  }

  lemma CallNow(s: Loop, id: TimerId) returns (steps: seq<Step>)
    requires Inv(s) && id in s.timers.tasks && s.timers.current == Some(Current(id, ToCall))
    ensures StartsMore(s, Run(s, steps), id)
  {
    assert s.phase.RunningTimers?;
    hide Inv;
    var s1 := if LOOP_THREAD in s.wakers then Next(s, Wakeup(LOOP_THREAD)) else s;
    assert s1.timers == s.timers && s1.phase == s.phase && LOOP_THREAD !in s1.wakers;
    assert Next(s1, CallTimer).timers == StartCallback(s.timers, s1.clock);
    hide Next;
    RunAfter(s1, CallTimer, []);
    steps := [CallTimer] + [];
    if LOOP_THREAD in s.wakers {
      RunAfter(s, Wakeup(LOOP_THREAD), steps);
      steps := [Wakeup(LOOP_THREAD)] + steps;
    }
  }
}
