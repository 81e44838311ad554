/** What the steps of the event loop come to, in the terms of its callers: when a timer is due, that it
    goes on living and starting, what is logged, how a quit ends the loop, what the wakeup fd counts. */
module LoopLaws {
  import opened Bytes
  import opened TimerQueue
  import opened LoopMachine
  import opened LoopRuns

  // ---------- A new timer ----------

  /** The new timer is in the map and once in the queue, under an id never used before, due when the
      call says; every other timer is as it was. */
  lemma NewTimerIsQueued(s: Loop, thread: ThreadId, timer: NewTimer)
    requires Inv(s) && Enabled(s, AddTimer(thread, timer))
    ensures var t, u, id := s.timers, Next(s, AddTimer(thread, timer)).timers, s.timers.nextId;
            && id !in t.tasks && id !in t.timers && id !in t.heap
            && u.heap == t.heap + multiset{id} && u.timers == t.timers + {id}
            && u.tasks.Keys == t.tasks.Keys + {id} && (forall x :: x in t.tasks ==> u.tasks[x] == t.tasks[x])
            && u.nextId > id && u.ready == t.ready && u.current == t.current && u.starts == t.starts
            && var task := u.tasks[id];
               && !task.cancelled && task.runs == 0 && task.hasCallback == timer.hasCallback
               && (timer.At? ==> !task.repeat && task.expire == timer.when)
               && (timer.Every? ==>
                     && task.repeat && task.created == timer.called
                     && task.interval == Max(1, timer.intervalMs) * 1_000_000
                     && task.expire == timer.called + Max(1, timer.intervalMs) * 1_000_000)
  {
    hide TimerInv;
    assert TaskOk(s.timers, s.timers.nextId, s.clock) && TimerInv(s.timers, s.clock) by {
      FreshIdKnown(s);
    }
  }

  lemma FreshIdKnown(s: Loop)
    requires Inv(s)
    ensures TimerInv(s.timers, s.clock) && TaskOk(s.timers, s.timers.nextId, s.clock)
  {
  }

  // ---------- What never changes about a task ----------

  ghost predicate SameTask(a: TimerTask, b: TimerTask) {
    && b.created == a.created && b.interval == a.interval && b.repeat == a.repeat && b.hasCallback == a.hasCallback
    && (a.cancelled ==> b.cancelled)
  }

  ghost predicate KeepsTask(was: map<TimerId, TimerTask>, now: map<TimerId, TimerTask>, id: TimerId) {
    id in was && id in now && SameTask(was[id], now[id])
  }

  lemma OperationsKeepTask(t: Timers, id: TimerId, now: int, task: TimerTask, other: TimerId)
    requires id in t.tasks && id < t.nextId
    ensures KeepsTask(t.tasks, t.tasks, id) && KeepsTask(t.tasks, Add(t, task).tasks, id)
    ensures (other in t.timers ==> other in t.tasks) ==> KeepsTask(t.tasks, CancelTimer(t, other).tasks, id)
    ensures t.ready != [] && t.ready[0] in t.tasks ==> KeepsTask(t.tasks, Fetch(t).tasks, id)
    ensures t.current.Some? && t.current.value.id in t.tasks ==>
              KeepsTask(t.tasks, StartCallback(t, now).tasks, id) && KeepsTask(t.tasks, Finish(t, now).tasks, id)
  {
  }

  /** The steps that touch tasks, and how. */
  lemma NextTasks(s: Loop, step: Step)
    ensures var t, tasks := s.timers, Next(s, step).timers.tasks;
            || tasks == t.tasks
            || (step.AddTimer? && tasks == Add(t, NewTask(step.timer)).tasks)
            || (step.Cancel? && (step.id in t.timers ==> step.id in t.tasks) && tasks == CancelTimer(t, step.id).tasks)
            || (t.current.Some? && t.current.value.id in t.tasks
                && (tasks == StartCallback(t, s.clock).tasks || tasks == Finish(t, s.clock).tasks))
  {
    hide PurgesTo, NotDue, IsBatch, Live, PollTimeoutMs, NewTask, StartCallback, Finish, Add, CancelTimer, Waking,
      OriginOf;
  }

  lemma StepKeepsTask(s: Loop, step: Step, id: TimerId)
    requires Inv(s) && id in s.timers.tasks
    ensures KeepsTask(s.timers.tasks, Next(s, step).timers.tasks, id)
  {
    assert TaskOk(s.timers, id, s.clock);
    var timer := if step.AddTimer? then step.timer else At(0, true);
    OperationsKeepTask(s.timers, id, s.clock, NewTask(timer), if step.Cancel? then step.id else 0);
    NextTasks(s, step);
    hide Inv, Next, NewTask, StartCallback, Finish, Add, CancelTimer, KeepsTask;
  }

  lemma {:induction false} RunKeepsTask(s: Loop, steps: seq<Step>, id: TimerId)
    requires Inv(s) && id in s.timers.tasks
    ensures KeepsTask(s.timers.tasks, Run(s, steps).timers.tasks, id)
    decreases |steps|
  {
    hide Inv, Next;
    if steps != [] {
      StepKeepsTask(s, steps[0], id);
      NextKeepsInv(s, steps[0]);
      RunKeepsTask(Next(s, steps[0]), steps[1..], id);
    }
  }

  // ---------- When callbacks start ----------

  /** The log is right: a start is logged with the clock as it is when the callback is called, and
      nothing else is logged. */
  lemma StartsAreLogged(s: Loop, step: Step)
    ensures var t, u := s.timers, Next(s, step).timers;
            if step == CallTimer && Enabled(s, step)
            then |u.starts| == |t.starts| + 1 && u.starts[..|t.starts|] == t.starts
                 && u.starts[|t.starts|].id == t.current.value.id && u.starts[|t.starts|].at == s.clock
            else u.starts == t.starts
  {
    hide PurgesTo, NotDue, IsBatch, Live, PollTimeoutMs, NewTask, Waking, OriginOf;
  }

  /** In every run: the k-th start of a timer made by RunEvery is at least k periods after the clock
      reading of that call, */
  lemma PeriodicTiming(before: seq<Step>, thread: ThreadId, called: int, intervalMs: int, hasCallback: bool,
                       after: seq<Step>, i: nat)
    requires Enabled(Run(START, before), AddTimer(thread, Every(called, intervalMs, hasCallback)))
    ensures var s := Run(START, before);
            var starts := Run(Next(s, AddTimer(thread, Every(called, intervalMs, hasCallback))), after).timers.starts;
            i < |starts| && starts[i].id == s.timers.nextId ==>
              starts[i].at >= called + StartsOf(starts[..i + 1], s.timers.nextId) * (Max(1, intervalMs) * 1_000_000)
  {
    var s, step := Run(START, before), AddTimer(thread, Every(called, intervalMs, hasCallback));
    var id := s.timers.nextId;
    ReachableInv(before);
    NewTimerIsQueued(s, thread, step.timer);
    NextKeepsInv(s, step);
    RunKeepsTask(Next(s, step), after, id);
    hide Inv, Next;
    RunThenMore(before, step, after);
    TimerTiming(before + [step] + after, i);
  }

  /** and a timer made by RunAt does not start before its time. */
  lemma OneShotTiming(before: seq<Step>, thread: ThreadId, when: int, hasCallback: bool, after: seq<Step>, i: nat)
    requires Enabled(Run(START, before), AddTimer(thread, At(when, hasCallback)))
    ensures var s := Run(START, before);
            var starts := Run(Next(s, AddTimer(thread, At(when, hasCallback))), after).timers.starts;
            i < |starts| && starts[i].id == s.timers.nextId ==> starts[i].at >= when
  {
    var s, step := Run(START, before), AddTimer(thread, At(when, hasCallback));
    var id := s.timers.nextId;
    ReachableInv(before);
    NewTimerIsQueued(s, thread, step.timer);
    NextKeepsInv(s, step);
    NeverStarted(s);
    assert NotBefore(Next(s, step).timers, id, when);
    NotBeforeRun(Next(s, step), after, id, when);
  }

  lemma RunThenMore(before: seq<Step>, step: Step, after: seq<Step>)
    ensures Run(START, before + [step] + after) == Run(Next(Run(START, before), step), after)
  {
    hide Next;
    RunMore(START, before + [step], after);
    RunMore(START, before, [step]);
    RunAfter(Run(START, before), step, []);
    assert [step] + [] == [step];
  }

  lemma NeverStarted(s: Loop)
    requires Inv(s)
    ensures forall i :: 0 <= i < |s.timers.starts| ==> s.timers.starts[i].id != s.timers.nextId
  {
    assert TaskOk(s.timers, s.timers.nextId, s.clock);
    forall i | 0 <= i < |s.timers.starts|
      ensures s.timers.starts[i].id != s.timers.nextId
    {
      assert GoodStart(s.timers.tasks, s.timers.starts, i);
    }
  }

  /** A one-shot keeps its expiry, and none of its starts is earlier. */
  ghost predicate NotBefore(t: Timers, id: TimerId, when: int) {
    && id in t.tasks && !t.tasks[id].repeat && t.tasks[id].expire == when
    && forall i :: 0 <= i < |t.starts| && t.starts[i].id == id ==> t.starts[i].at >= when
  }

  lemma NotBeforeStep(s: Loop, step: Step, id: TimerId, when: int)
    requires Inv(s) && NotBefore(s.timers, id, when)
    ensures NotBefore(Next(s, step).timers, id, when)
  {
    var u := Next(s, step).timers;
    StepKeepsTask(s, step, id);
    StartsAreLogged(s, step);
    OneShotExpiry(s, step, id);
    if step == CallTimer && Enabled(s, step) && s.timers.current.value.id == id {
      assert TaskOk(s.timers, id, s.clock);
    }
    hide Inv, Next, Enabled;
    forall i | 0 <= i < |u.starts| && u.starts[i].id == id
      ensures u.starts[i].at >= when
    {
      if i < |s.timers.starts| {
        assert u.starts[..|s.timers.starts|][i] == s.timers.starts[i];
      }
    }
  }

  lemma OneShotExpiry(s: Loop, step: Step, id: TimerId)
    requires Inv(s) && id in s.timers.tasks && !s.timers.tasks[id].repeat
    ensures SameExpiry(s.timers.tasks, Next(s, step).timers.tasks, id)
  {
    assert TaskOk(s.timers, id, s.clock);
    var timer := if step.AddTimer? then step.timer else At(0, true);
    OperationsKeepExpiry(s.timers, id, s.clock, NewTask(timer), if step.Cancel? then step.id else 0);
    NextTasks(s, step);
    hide Inv, Next, NewTask, StartCallback, Finish, Add, CancelTimer, SameExpiry;
  }

  ghost predicate SameExpiry(was: map<TimerId, TimerTask>, now: map<TimerId, TimerTask>, id: TimerId) {
    id in was && id in now && was[id].expire == now[id].expire
  }

  lemma OperationsKeepExpiry(t: Timers, id: TimerId, now: int, task: TimerTask, other: TimerId)
    requires id in t.tasks && id < t.nextId && !t.tasks[id].repeat
    ensures SameExpiry(t.tasks, t.tasks, id) && SameExpiry(t.tasks, Add(t, task).tasks, id)
    ensures (other in t.timers ==> other in t.tasks) ==> SameExpiry(t.tasks, CancelTimer(t, other).tasks, id)
    ensures t.ready != [] && t.ready[0] in t.tasks ==> SameExpiry(t.tasks, Fetch(t).tasks, id)
    ensures t.current.Some? && t.current.value.id in t.tasks ==>
              SameExpiry(t.tasks, StartCallback(t, now).tasks, id) && SameExpiry(t.tasks, Finish(t, now).tasks, id)
  {
  }

  lemma {:induction false} NotBeforeRun(s: Loop, steps: seq<Step>, id: TimerId, when: int)
    requires Inv(s) && NotBefore(s.timers, id, when)
    ensures NotBefore(Run(s, steps).timers, id, when)
    decreases |steps|
  {
    hide Inv, Next, NotBefore;
    if steps != [] {
      NotBeforeStep(s, steps[0], id, when);
      NextKeepsInv(s, steps[0]);
      NotBeforeRun(Next(s, steps[0]), steps[1..], id, when);
    }
  }

  /** The loop takes the tasks of a batch in order, and goes on to call one exactly if it has a callback
      and has not been cancelled by then. */
  lemma TestBeforeCall(s: Loop)
    requires Enabled(s, FetchTimer)
    ensures var t, u, id := s.timers, Next(s, FetchTimer).timers, s.timers.ready[0];
            && u == t.(ready := t.ready[1..], current := u.current)
            && u.current.Some? && u.current.value.id == id
            && (AtCall(Next(s, FetchTimer), id) <==> t.tasks[id].hasCallback && !t.tasks[id].cancelled)
            && (AtCall(Next(s, FetchTimer), id) <==> Enabled(Next(s, FetchTimer), CallTimer))
  {
    hide PurgesTo, NotDue, IsBatch, Live, PollTimeoutMs, NewTask;
  }

  // ---------- A periodic timer goes on ----------

  ghost predicate GoesOn(t: Timers, id: TimerId) {
    id in t.timers && Located(t, id) && id in t.tasks && t.tasks[id].repeat && !t.tasks[id].cancelled
  }

  lemma LocatedIsLive(s: Loop, id: TimerId)
    requires Inv(s) && id in s.timers.timers
    ensures Located(s.timers, id) && id in s.timers.tasks && !s.timers.tasks[id].cancelled
  {
    assert TaskOk(s.timers, id, s.clock);
  }

  lemma PeriodicStep(s: Loop, step: Step, id: TimerId)
    requires Inv(s) && GoesOn(s.timers, id) && !(step.Cancel? && step.id == id)
    ensures GoesOn(Next(s, step).timers, id)
  {
    StepKeepsTask(s, step, id);
    NextKeepsInv(s, step);
    StaysInMap(s, step, id);
    hide Inv, Next;
    LocatedIsLive(Next(s, step), id);
  }

  lemma StaysInMap(s: Loop, step: Step, id: TimerId)
    requires GoesOn(s.timers, id) && !(step.Cancel? && step.id == id)
    ensures id in Next(s, step).timers.timers
  {
    hide PurgesTo, NotDue, IsBatch, Live, PollTimeoutMs, NewTask, Waking, OriginOf;
  }

  /** Over every run: a periodic timer in the map stays there, and in queue, batch or hand, until
      somebody cancels it. */
  lemma {:induction false} PeriodicGoesOn(s: Loop, steps: seq<Step>, id: TimerId)
    requires Inv(s) && GoesOn(s.timers, id)
    requires forall i :: 0 <= i < |steps| ==> !(steps[i].Cancel? && steps[i].id == id)
    ensures GoesOn(Run(s, steps).timers, id)
    decreases |steps|
  {
    hide Inv, Next;
    if steps != [] {
      PeriodicStep(s, steps[0], id);
      NextKeepsInv(s, steps[0]);
      PeriodicGoesOn(Next(s, steps[0]), steps[1..], id);
    }
  }

  /** When its turn ends it is in the queue once, due one period after that; a one-shot is gone, and so
      is a periodic one that has been cancelled. */
  lemma EndOfTurn(s: Loop)
    requires Inv(s) && Enabled(s, FinishTimer)
    ensures var t, u, id := s.timers, Next(s, FinishTimer).timers, s.timers.current.value.id;
            && id in t.tasks && id in u.tasks && u.current == None && u.ready == t.ready
            && (t.tasks[id].repeat && id in t.timers ==>
                  id in u.timers && u.heap[id] == 1 && u.tasks[id].expire == s.clock + t.tasks[id].interval)
            && (!t.tasks[id].repeat || id !in t.timers ==> id !in u.timers && u.heap[id] == 0)
  {
    var id := s.timers.current.value.id;
    assert IsCurrent(s.timers, id) && TaskOk(s.timers, id, s.clock);
    hide Inv, PurgesTo, NotDue, IsBatch, Live, PollTimeoutMs, NewTask, Waking, OriginOf;
  }

  // ---------- A live timer can start ----------

  /** The timer is live and waits for its start, or is periodic; the loop's thread has no wakeup to write. */
  ghost predicate Due(s: Loop, id: TimerId) {
    && Inv(s) && LOOP_THREAD !in s.wakers && id in s.timers.timers
    && id in s.timers.tasks && s.timers.tasks[id].hasCallback
    && (s.timers.tasks[id].repeat || Waiting(s.timers, id))
  }

  /** Steps that the loop's thread takes by itself. */
  predicate LoopsOwn(step: Step) {
    || step.Tick? || step.EnterLoop? || step.Decide? || step.Compute? || step.PollReturns? || step.EndEvents?
    || step.Swap? || step.RunFunctor? || step.EndFunctors? || step.TakeDue? || step.FetchTimer? || step.CallTimer?
    || step.FinishTimer? || step.EndTimers?
  }

  /** The loop is about to call it. */
  predicate AtCall(s: Loop, id: TimerId) {
    s.timers.current == Some(Current(id, ToCall))
  }

  lemma OwnStepKeepsDue(s: Loop, step: Step, id: TimerId)
    requires Due(s, id) && LoopsOwn(step) && !(step.CallTimer? && AtCall(s, id))
    ensures Due(Next(s, step), id) && Next(s, step).timers.tasks[id].runs == s.timers.tasks[id].runs
  {
    NextKeepsInv(s, step);
    StepKeepsTask(s, step, id);
    LocatedIsLive(s, id);
    assert TaskOk(s.timers, id, s.clock);
    hide Inv;
    OwnStepFrame(s, step, id);
    if s.timers.tasks[id].repeat {
      StaysInMap(s, step, id);
    } else {
      OneShotWaits(s, step, id);
    }
  }

  lemma OwnStepFrame(s: Loop, step: Step, id: TimerId)
    requires LoopsOwn(step) && !(step.CallTimer? && AtCall(s, id)) && id in s.timers.tasks
    ensures LOOP_THREAD in Next(s, step).wakers ==> LOOP_THREAD in s.wakers
    ensures id in Next(s, step).timers.tasks && Next(s, step).timers.tasks[id].runs == s.timers.tasks[id].runs
  {
    hide PurgesTo, NotDue, IsBatch, Live, PollTimeoutMs, NewTask, Waking, OriginOf;
  }

  lemma OneShotWaits(s: Loop, step: Step, id: TimerId)
    requires LoopsOwn(step) && !(step.CallTimer? && AtCall(s, id))
    requires id in s.timers.tasks && s.timers.tasks[id].hasCallback && !s.timers.tasks[id].cancelled
    requires Placed(s.timers, id) && id in s.timers.timers && Waiting(s.timers, id)
    requires !s.phase.RunningTimers? ==> s.timers.ready == [] && s.timers.current == None
    ensures id in Next(s, step).timers.timers && Waiting(Next(s, step).timers, id)
  {
    hide PollTimeoutMs, NewTask, Waking, OriginOf;
    if step.FetchTimer? && Enabled(s, step) && s.timers.ready[0] != id && id in s.timers.ready {
      assert id in s.timers.ready[1..];
    }
  }

  /** `ids` in expiry order. */
  ghost predicate Sorts(tasks: map<TimerId, TimerTask>, ids: set<TimerId>, r: seq<TimerId>)
    requires ids <= tasks.Keys
  {
    (forall id :: id in r <==> id in ids) && Distinct(r) && SortedByExpiry(tasks, r)
  }

  lemma SortsMore(tasks: map<TimerId, TimerTask>, ids: set<TimerId>, first: TimerId, r: seq<TimerId>)
    requires ids <= tasks.Keys && first in ids && Sorts(tasks, ids - {first}, r)
    requires forall id :: id in ids ==> tasks[first].expire <= tasks[id].expire
    ensures Sorts(tasks, ids, [first] + r)
  {
    var more := [first] + r;
    assert forall id :: id in more <==> id == first || id in r;
    forall i | 0 <= i < |more|
      ensures more[i] in tasks
    {
      if i > 0 {
        assert more[i] == r[i - 1] && r[i - 1] in r;
      }
    }
    forall i, j | 0 <= i < j < |more|
      ensures more[i] != more[j] && tasks[more[i]].expire <= tasks[more[j]].expire
    {
      assert more[j] == r[j - 1] && r[j - 1] in r;
    }
  }

  /** A batch exists. */
  lemma {:induction false} SortedIds(tasks: map<TimerId, TimerTask>, ids: set<TimerId>) returns (r: seq<TimerId>)
    requires ids <= tasks.Keys
    ensures Sorts(tasks, ids, r)
    decreases |ids|
  {
    if ids == {} {
      r := [];
    } else {
      var e := Earliest(tasks, ids);
      var first :| first in ids && tasks[first].expire == e;
      var rest := SortedIds(tasks, ids - {first});
      SortsMore(tasks, ids, first, rest);
      r := [first] + rest;
    }
  }

  /** With the clock at its expiry or later, a timer in the queue gets into the batch. */
  lemma BatchTakesIt(s: Loop, id: TimerId) returns (step: Step)
    requires Due(s, id) && s.phase.BeforeTimers? && id in s.timers.heap && s.timers.tasks[id].expire <= s.clock
    ensures step.TakeDue? && Enabled(s, step)
    ensures var u := Next(s, step); u.phase.RunningTimers? && id in u.timers.ready
  {
    var t := s.timers;
    LocatedIsLive(s, id);
    InvGivesTimers(s);
    QueueKnown(t, s.clock);
    var heap := multiset(set x | x in t.heap && t.tasks[x].expire > s.clock);
    var due := set x | x in t.heap && IsLive(t, x) && t.tasks[x].expire <= s.clock;
    var ids := SortedIds(t.tasks, due);
    assert id in due;
    assert NotDue(t, s.clock, heap) && IsBatch(t, s.clock, ids);
    step := TakeDue(heap, ids);
  }

  /** From inside a batch that has it: to its call. */
  lemma {:induction false} StartInBatch(s: Loop, id: TimerId) returns (steps: seq<Step>)
    requires Due(s, id) && s.phase.RunningTimers? && (id in s.timers.ready || AtCall(s, id))
    ensures StartsMore(s, Run(s, steps), id)
    decreases TimerWork(s.timers)
  {
    if AtCall(s, id) {
      steps := CallNow(s, id);
    } else {
      var step := TimerStep(s.timers);
      TimerStepEnabled(s);
      TimerStepWorks(s);
      OwnStepKeepsDue(s, step, id);
      StillInBatch(s, id);
      hide Inv, Next, Enabled;
      var rest := StartInBatch(Next(s, step), id);
      RunAfter(s, step, rest);
      steps := [step] + rest;
    }
  }

  lemma StillInBatch(s: Loop, id: TimerId)
    requires Due(s, id) && s.phase.RunningTimers? && id in s.timers.ready && Enabled(s, TimerStep(s.timers))
    ensures var u := Next(s, TimerStep(s.timers));
            u.phase.RunningTimers? && (id in u.timers.ready || AtCall(u, id))
  {
    LocatedIsLive(s, id);
    hide Inv, PurgesTo, NotDue, IsBatch, Live, PollTimeoutMs, NewTask, Waking, OriginOf;
    if s.timers.current.None? && s.timers.ready[0] != id {
      assert id in s.timers.ready[1..];
    }
  }

  /** The loop's next step on the way to its timers. */
  ghost function TowardsTimers(s: Loop): Step {
    match s.phase
    case Outside => EnterLoop
    case Deciding => Decide
    case Computing => Compute(s.timers.heap)
    case Polling(_, _) => PollReturns
    case Events(_) => EndEvents
    case BeforeSwap => Swap
    case RunningFunctors => if s.batch == [] then EndFunctors else RunFunctor
    case BeforeTimers => Tick(s.clock)
    case RunningTimers => TimerStep(s.timers)
  }

  function Distance(s: Loop): nat {
    match s.phase
    case Deciding => if s.quit then 9 else 7
    case Outside => 8
    case Computing => 6
    case Polling(_, _) => 5
    case Events(_) => 4
    case BeforeSwap => 3
    case RunningFunctors => 2
    case BeforeTimers => 1
    case RunningTimers => 10
  }

  lemma TowardsTimersWorks(s: Loop)
    requires Inv(s) && LOOP_THREAD !in s.wakers && !s.phase.BeforeTimers?
    ensures var step, u := TowardsTimers(s), Next(s, TowardsTimers(s));
            && LoopsOwn(step) && Enabled(s, step)
            && (|| Distance(u) < Distance(s)
                || (Distance(u) == Distance(s) == 2 && |u.batch| < |s.batch|)
                || (Distance(u) == Distance(s) == 10 && TimerWork(u.timers) < TimerWork(s.timers)))
  {
    InvGivesTimers(s);
    if s.phase.RunningTimers? {
      TimerStepEnabled(s);
      TimerStepWorks(s);
    } else {
      QueueKnown(s.timers, s.clock);
      hide Inv, NotDue, IsBatch, Live, PollTimeoutMs;
    }
  }

  /** From anywhere else the loop comes to its timers, with this one in the queue, or calls it on the
      way. */
  lemma {:induction false} ComeToTimers(s: Loop, id: TimerId) returns (steps: seq<Step>)
    requires Due(s, id)
    ensures var u := Run(s, steps);
            || StartsMore(s, u, id)
            || (Due(u, id) && u.phase.BeforeTimers? && u.timers.tasks[id].runs == s.timers.tasks[id].runs)
    decreases Distance(s), |s.batch|, TimerWork(s.timers)
  {
    if s.phase.BeforeTimers? {
      steps := [];
    } else if AtCall(s, id) {
      steps := CallNow(s, id);
    } else {
      var step := TowardsTimers(s);
      TowardsTimersWorks(s);
      OwnStepKeepsDue(s, step, id);
      BatchFrame(s, step);
      hide Inv, Next, Enabled;
      var rest := ComeToTimers(Next(s, step), id);
      RunAfter(s, step, rest);
      steps := [step] + rest;
    }
  }

  lemma BatchFrame(s: Loop, step: Step)
    ensures s.phase.RunningTimers? && step == TimerStep(s.timers) ==> Next(s, step).batch == s.batch
  {
    hide PurgesTo, NotDue, IsBatch, Live, PollTimeoutMs, NewTask, Waking, OriginOf, Fetch, StartCallback, Finish;
  }

  /** Some continuation starts it: a live timer with a callback that is periodic, or has not started. */
  lemma LiveTimerCanStart(s: Loop, id: TimerId)
    requires Inv(s) && id in s.timers.timers
    ensures id in s.timers.tasks
    ensures s.timers.tasks[id].hasCallback && (s.timers.tasks[id].repeat || Waiting(s.timers, id)) ==> CanStart(s, id)
  {
    LocatedIsLive(s, id);
    if s.timers.tasks[id].hasCallback && (s.timers.tasks[id].repeat || Waiting(s.timers, id)) {
      var steps;
      if LOOP_THREAD in s.wakers {
        LoopWakes(s, id);
        var rest := StartItAgain(Next(s, Wakeup(LOOP_THREAD)), id);
        RunAfter(s, Wakeup(LOOP_THREAD), rest);
        steps := [Wakeup(LOOP_THREAD)] + rest;
      } else {
        steps := StartItAgain(s, id);
      }
      assert StartsMore(s, Run(s, steps), id);
    }
  }

  lemma LoopWakes(s: Loop, id: TimerId)
    requires Inv(s) && LOOP_THREAD in s.wakers
    ensures var u := Next(s, Wakeup(LOOP_THREAD)); Inv(u) && u.timers == s.timers && LOOP_THREAD !in u.wakers
  {
    NextKeepsInv(s, Wakeup(LOOP_THREAD));
  }

  lemma StartItAgain(s: Loop, id: TimerId) returns (steps: seq<Step>)
    requires Due(s, id)
    ensures StartsMore(s, Run(s, steps), id)
  {
    hide Next, Inv;
    steps := ComeToTimers(s, id);
    var u := Run(s, steps);
    if !StartsMore(s, u, id) {
      var rest := StartFromQueue(u, id);
      RunMore(s, steps, rest);
      steps := steps + rest;
    }
  }

  lemma StartFromQueue(s: Loop, id: TimerId) returns (steps: seq<Step>)
    requires Due(s, id) && s.phase.BeforeTimers?
    ensures StartsMore(s, Run(s, steps), id)
  {
    LocatedIsLive(s, id);
    assert id in s.timers.heap;
    var tick := Tick(Max(s.clock, s.timers.tasks[id].expire));
    OwnStepKeepsDue(s, tick, id);
    var s1 := Next(s, tick);
    assert s1 == s.(clock := tick.now);
    hide Inv;
    var step := BatchTakesIt(s1, id);
    OwnStepKeepsDue(s1, step, id);
    hide Next, Enabled;
    var rest := StartInBatch(Next(s1, step), id);
    RunAfter(s1, step, rest);
    RunAfter(s, tick, [step] + rest);
    steps := [tick] + ([step] + rest);
  }

  // ---------- Quit ----------

  ghost predicate Quitting(s: Loop, polls: nat) {
    s.quit && s.polls + (if s.phase.Computing? then 1 else 0) <= polls
  }

  lemma QuittingStep(s: Loop, step: Step, polls: nat)
    requires Quitting(s, polls) && step != EnterLoop
    ensures Quitting(Next(s, step), polls)
  {
    hide PurgesTo, NotDue, IsBatch, Live, PollTimeoutMs, NewTask, Waking, OriginOf, Fetch, StartCallback, Finish, Add,
      CancelTimer, TakeBatch;
  }

  /** After a Quit no further poll begins until Loop is called again, except one whose timeout was about
      to be computed. */
  lemma QuitEndsLoop(s: Loop, thread: ThreadId, steps: seq<Step>)
    requires Enabled(s, Quit(thread)) && EnterLoop !in steps
    ensures Run(Next(s, Quit(thread)), steps).polls <= s.polls + if s.phase.Computing? then 1 else 0
  {
    QuittingRun(Next(s, Quit(thread)), steps, s.polls + if s.phase.Computing? then 1 else 0);
  }

  lemma {:induction false} QuittingRun(s: Loop, steps: seq<Step>, polls: nat)
    requires Quitting(s, polls) && EnterLoop !in steps
    ensures Quitting(Run(s, steps), polls)
    decreases |steps|
  {
    hide Next;
    if steps != [] {
      QuittingStep(s, steps[0], polls);
      QuittingRun(Next(s, steps[0]), steps[1..], polls);
    }
  }

  // ---------- The wakeup fd ----------

  /** Wakeups written since the fd was last read empty. */
  ghost function Unread(s: Loop, steps: seq<Step>): nat {
    if steps == [] then s.token
    else
      var before, step := steps[..|steps| - 1], steps[|steps| - 1];
      if !Enabled(Run(s, before), step) then Unread(s, before)
      else if step == DrainWakeup then 0
      else Unread(s, before) + if step.Wakeup? then 1 else 0
  }

  lemma TokenStep(s: Loop, step: Step)
    ensures var u := Next(s, step);
            u.token == if !Enabled(s, step) then s.token
                       else if step == DrainWakeup then 0
                       else s.token + if step.Wakeup? then 1 else 0
  {
    hide PurgesTo, NotDue, IsBatch, Live, PollTimeoutMs, NewTask, Waking, OriginOf, Fetch, StartCallback, Finish, Add,
      CancelTimer, TakeBatch;
  }

  /** The fd counts them: a read of it takes all, so no wakeup ends two polls. */
  lemma {:induction false} TokenCountsWakeups(s: Loop, steps: seq<Step>)
    ensures Run(s, steps).token == Unread(s, steps)
    decreases |steps|
  {
    if steps != [] {
      var before, step := steps[..|steps| - 1], steps[|steps| - 1];
      TokenCountsWakeups(s, before);
      TokenStep(Run(s, before), step);
      hide Next, Enabled;
      assert steps == before + [step];
      RunMore(s, before, [step]);
      RunAfter(Run(s, before), step, []);
      assert [step] + [] == [step];
    }
  }

  /** A poll that comes back with the fd written to gets to read it empty. */
  lemma WakeupIsSeen(s: Loop)
    requires Enabled(s, PollReturns) && s.token > 0
    ensures var u := Next(s, PollReturns);
            Enabled(u, DrainWakeup) && Next(u, DrainWakeup).token == 0 && u.token == s.token
  {
    hide PurgesTo, NotDue, IsBatch, Live, PollTimeoutMs;
  }

  /** Who goes on to write a wakeup: other threads after every call that changes something, the loop's own
      after queueing or adding inside DoPendingFunctors. */
  lemma CallersWake(s: Loop, step: Step)
    requires step.QueueInLoop? || step.AddTimer? || step.Cancel? || step.Quit?
    requires Enabled(s, step)
    ensures var inLoop, calling := step.thread == LOOP_THREAD, s.phase.BeforeSwap? || s.phase.RunningFunctors?;
            var wakes := match step
                         case Cancel(_, id) => !inLoop && id in s.timers.timers
                         case Quit(_) => !inLoop
                         case _ => !inLoop || calling;
            var u := Next(s, step);
            && u.wakers.Keys == s.wakers.Keys + (if wakes then {step.thread} else {})
            && u.phase == s.phase && u.token == s.token
            && (wakes ==> Enabled(u, Wakeup(step.thread)) && Next(u, Wakeup(step.thread)).token == s.token + 1)
  {
    hide PurgesTo, NotDue, IsBatch, Live, PollTimeoutMs, NewTask, Add, CancelTimer;
  }

  // ---------- The poll timeout ----------

  /** No live timer is due before a poll of `ms` milliseconds is over. */
  ghost predicate SleepIsSafe(t: Timers, now: int, ms: int) {
    forall id :: id in t.heap && IsLive(t, id) ==> id in t.tasks && now + ms * 1_000_000 <= t.tasks[id].expire
  }

  /** The timeout is the longest sleep of at most ten seconds that no live timer is slept past in, and 0
      if there is none. */
  lemma TimeoutIsLongestSafeSleep(t: Timers, now: int, ms: int)
    requires Live(t) <= t.tasks.Keys
    ensures 0 <= PollTimeoutMs(t, now) <= 10_000
    ensures 0 < ms <= 10_000 ==> (ms <= PollTimeoutMs(t, now) <==> SleepIsSafe(t, now, ms))
  {
    if Live(t) != {} && 0 < ms <= 10_000 {
      var e := Earliest(t.tasks, Live(t));
      var first :| first in Live(t) && t.tasks[first].expire == e;
      assert ms <= (e - now) / 1_000_000 <==> now + ms * 1_000_000 <= e;
      assert SleepIsSafe(t, now, ms) <==> now + ms * 1_000_000 <= e by {
        if now + ms * 1_000_000 <= e {
          forall id | id in t.heap && IsLive(t, id)
            ensures id in t.tasks && now + ms * 1_000_000 <= t.tasks[id].expire
          {
            assert id in Live(t);
          }
        }
      }
    } else if Live(t) == {} {
      assert forall id :: id in t.heap && IsLive(t, id) ==> id in Live(t);
    }
  }
}
