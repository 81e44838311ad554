/** EventLoop's timer side as an object: the locked sections are methods on its fields, and
    ProcessDelayedTasks runs them with callbacks that may add and cancel timers. */
module EventLoops {
  import opened Bytes
  import opened TimerQueue
  import LoopLaws

  /** A call on the loop's timers made by a timer callback. */
  datatype TimerCall = CallRunAt(when: int) | CallRunAfter(delayMs: int) | CallRunEvery(intervalMs: int)
                     | CallCancel(id: TimerId)

  /** One such call, with the clock at `now`. */
  ghost function CallStep(t: Timers, call: TimerCall, now: int): Timers {
    match call
    case CallRunAt(when) => Add(t, OneShot(when, true))
    case CallRunAfter(delayMs) => Add(t, OneShot(now + Max(delayMs, 0) * MS, true))
    case CallRunEvery(intervalMs) => Add(t, Periodic(now, intervalMs, true))
    case CallCancel(id) => if id in t.timers && id !in t.tasks then t else CancelTimer(t, id)
  }

  /** All calls of a callback; `at` are the clock readings. */
  ghost function RunCalls(t: Timers, calls: seq<TimerCall>, at: seq<int>): (u: Timers)
    requires |at| == |calls|
    ensures u.current == t.current && u.ready == t.ready && u.starts == t.starts && u.batch == t.batch
    ensures IdsBelow(t) ==> TasksPersist(t, u) && IdsBelow(u)
  {
    if calls == [] then t
    else
      var n := |calls| - 1;
      var v := RunCalls(t, calls[..n], at[..n]);
      CallShape(v, calls[n], at[n]);
      CallStep(v, calls[n], at[n])
  }

  lemma CallShape(t: Timers, call: TimerCall, now: int)
    ensures var u := CallStep(t, call, now);
            && u.current == t.current && u.ready == t.ready && u.starts == t.starts && u.batch == t.batch
            && (IdsBelow(t) ==> TasksPersist(t, u) && IdsBelow(u))
  {
  }

  /** Tasks stay, keep their callback, and once cancelled stay so. */
  ghost predicate TasksPersist(t: Timers, u: Timers) {
    forall id :: id in t.tasks ==>
      && id in u.tasks && u.tasks[id].hasCallback == t.tasks[id].hasCallback
      && (t.tasks[id].cancelled ==> u.tasks[id].cancelled)
  }

  ghost predicate IdsBelow(t: Timers) {
    forall id :: id in t.tasks ==> id < t.nextId
  }

  /** ProcessDelayedTasks calls the task's callback. */
  predicate Runs(t: Timers, id: TimerId) {
    id in t.tasks && !t.tasks[id].cancelled && t.tasks[id].hasCallback
  }

  /** One turn of ProcessDelayedTasks: fetch the task, call it unless it is cancelled or empty, and put
      it away. The callback starts at `now` and makes `calls`; the turn ends at `end`. */
  ghost function TaskTurn(t: Timers, now: int, calls: seq<TimerCall>, at: seq<int>, end: int): (u: Timers)
    requires t.ready != [] && t.ready[0] in t.tasks && IdsBelow(t) && |at| == |calls|
    ensures TasksPersist(t, u) && u.ready == t.ready[1..] && u.batch == t.batch && u.current == None
    ensures var id := t.ready[0];
            u.starts == t.starts + if Runs(t, id)
                                   then [Start(id, now, t.tasks[id].expire, t.tasks[id].runs + 1, t.batch)] else []
  {
    FetchShape(t);
    if Runs(t, t.ready[0]) then
      StartShape(t, now);
      var v := StartCallback(Fetch(t), now);
      var w := RunCalls(v, calls, at);
      FinishShape(w, end);
      Finish(w, end)
    else
      FinishShape(Fetch(t), end);
      Finish(Fetch(t), end)
  }

  lemma FetchShape(t: Timers)
    requires t.ready != [] && t.ready[0] in t.tasks
    ensures var u := Fetch(t);
            && u == t.(ready := t.ready[1..], current := u.current)
            && u.current.Some? && u.current.value.id == t.ready[0]
  {
  }

  lemma StartShape(t: Timers, now: int)
    requires t.ready != [] && t.ready[0] in t.tasks
    ensures var id, u := t.ready[0], StartCallback(Fetch(t), now);
            && TasksPersist(t, u) && u.ready == t.ready[1..] && u.batch == t.batch && u.nextId == t.nextId
            && u.tasks.Keys == t.tasks.Keys && u.current.Some? && u.current.value.id == id
            && u.starts == t.starts + [Start(id, now, t.tasks[id].expire, t.tasks[id].runs + 1, t.batch)]
  {
  }

  lemma FinishShape(t: Timers, now: int)
    requires t.current.Some? && t.current.value.id in t.tasks
    ensures var u := Finish(t, now);
            && TasksPersist(t, u) && u.ready == t.ready && u.batch == t.batch && u.starts == t.starts
            && u.current == None
  {
  }

  /** `u` is `t` after one such turn; the callback reads the clock between its start and its end. */
  ghost predicate Turn(t: Timers, u: Timers, calls: seq<TimerCall>) {
    && t.ready != [] && t.ready[0] in t.tasks && IdsBelow(t)
    && exists now, at, end :: |at| == |calls| && Within(at, now, end) && TaskTurn(t, now, calls, at, end) == u
  }

  ghost predicate Within(at: seq<int>, now: int, end: int) {
    now <= end && forall i :: 0 <= i < |at| ==> now <= at[i] <= end
  }

  /** The turns of a batch, one for each task in its order. */
  ghost predicate Turns(trace: seq<Timers>, due: seq<TimerId>, does: TimerId -> seq<TimerCall>)
    requires |trace| <= |due| + 1
  {
    forall i :: 0 <= i < |trace| - 1 ==> trace[i].ready == due[i..] && Turn(trace[i], trace[i + 1], does(due[i]))
  }

  lemma RunCallsMore(t: Timers, calls: seq<TimerCall>, at: seq<int>, i: nat, now: int)
    requires i < |calls| && |at| == i
    ensures RunCalls(t, calls[..i + 1], at + [now]) == CallStep(RunCalls(t, calls[..i], at), calls[i], now)
  {
    assert calls[..i + 1][..i] == calls[..i] && (at + [now])[..i] == at;
  }

  lemma MinimumExists(tasks: map<TimerId, TimerTask>, heap: multiset<TimerId>)
    requires heap != multiset{} && forall id :: id in heap ==> id in tasks
    ensures exists top :: top in heap && forall id :: id in heap ==> tasks[top].expire <= tasks[id].expire
  {
    var ids := set id | id in heap;
    var x :| x in heap;
    assert x in ids;
    var e := Earliest(tasks, ids);
    var top :| top in ids && tasks[top].expire == e;
    assert forall id :: id in heap ==> id in ids;
  }

  /** ProcessDelayedTasks has popped everything outside `heap`, and kept the live ones in `ready`. */
  ghost predicate Collecting(t: Timers, now: int, heap: multiset<TimerId>, ready: seq<TimerId>)
    requires forall id :: id in t.heap ==> id in t.tasks
  {
    && (forall id :: id in heap ==> id in t.heap && heap[id] == t.heap[id])
    && (forall id :: id in t.heap && id !in heap ==> t.tasks[id].expire <= now)
    && (forall id :: id in ready <==> id in t.heap && id !in heap && IsLive(t, id))
    && Distinct(ready) && SortedByExpiry(t.tasks, ready)
    && (forall r, id :: r in ready && id in heap ==> t.tasks[r].expire <= t.tasks[id].expire)
  }

  lemma CollectNothing(t: Timers, now: int)
    requires forall id :: id in t.heap ==> id in t.tasks
    ensures Collecting(t, now, t.heap, [])
  {
  }

  lemma CollectTop(t: Timers, now: int, heap: multiset<TimerId>, ready: seq<TimerId>, top: TimerId)
    requires forall id :: id in t.heap ==> id in t.tasks
    requires Collecting(t, now, heap, ready)
    requires top in heap && heap[top] == 1 && t.tasks[top].expire <= now
    requires forall id :: id in heap ==> t.tasks[top].expire <= t.tasks[id].expire
    ensures forall id :: id in heap - multiset{top} ==> id in t.heap && t.heap[id] == (heap - multiset{top})[id]
    ensures Collecting(t, now, heap - multiset{top}, if IsLive(t, top) then ready + [top] else ready)
  {
    var rest := heap - multiset{top};
    var more := if IsLive(t, top) then ready + [top] else ready;
    assert forall id :: rest[id] == if id == top then 0 else heap[id];
    assert forall id :: id in more <==> id in ready || (id == top && IsLive(t, top));
    assert top !in ready;
  }

  lemma CollectedAll(t: Timers, now: int, heap: multiset<TimerId>, ready: seq<TimerId>)
    requires forall id :: id in t.heap ==> id in t.tasks
    requires Collecting(t, now, heap, ready)
    requires forall id :: id in heap ==> t.tasks[id].expire > now
    ensures NotDue(t, now, heap) && IsBatch(t, now, ready)
  {
  }

  ghost predicate Started(starts: seq<Start>, id: TimerId) {
    exists i :: 0 <= i < |starts| && starts[i].id == id
  }

  /** The starts of one batch: each from it, none twice. */
  ghost predicate StartedFrom(ids: seq<TimerId>, starts: seq<Start>, batch: nat) {
    && (forall i :: 0 <= i < |starts| ==> starts[i].id in ids && starts[i].batch == batch)
    && (forall i, j :: 0 <= i < j < |starts| ==> starts[i].id != starts[j].id)
  }

  /** The first `done` turns have been taken: exactly those tasks have started that could. */
  ghost predicate StartedSoFar(due: seq<TimerId>, done: nat, trace: seq<Timers>, starts: seq<Start>, batch: nat)
    requires done <= |due| && done <= |trace|
  {
    && StartedFrom(due[..done], starts, batch)
    && (forall i :: 0 <= i < done ==> (Started(starts, due[i]) <==> Runs(trace[i], due[i])))
  }

  lemma StartedMore(due: seq<TimerId>, done: nat, trace: seq<Timers>, before: seq<Start>, after: seq<Start>,
                    batch: nat, u: Timers)
    requires Distinct(due) && done < |due| && |trace| == done + 1 && StartedSoFar(due, done, trace, before, batch)
    requires if Runs(trace[done], due[done])
             then |after| == |before| + 1 && after[..|before|] == before
                  && after[|before|].id == due[done] && after[|before|].batch == batch
             else after == before
    ensures StartedSoFar(due, done + 1, trace + [u], after, batch)
  {
    if Runs(trace[done], due[done]) {
      assert after[|before|].id == due[done];
      forall i | 0 <= i < done
        ensures Started(after, due[i]) <==> Started(before, due[i])
      {
        if Started(before, due[i]) {
          var j :| 0 <= j < |before| && before[j].id == due[i];
          assert after[..|before|][j].id == due[i];
        }
        if Started(after, due[i]) {
          var j :| 0 <= j < |after| && after[j].id == due[i];
          assert after[..|before|][j] == before[j];
        }
      }
      forall i | 0 <= i < |before|
        ensures after[i] == before[i]
      {
        assert after[..|before|][i] == before[i];
      }
    }
  }

  lemma TurnTaken(t: Timers, now: int, calls: seq<TimerCall>, at: seq<int>, end: int)
    requires t.ready != [] && t.ready[0] in t.tasks && IdsBelow(t) && |at| == |calls| && Within(at, now, end)
    ensures Turn(t, TaskTurn(t, now, calls, at, end), calls)
  {
  }

  lemma {:induction false} TurnsPersist(trace: seq<Timers>, due: seq<TimerId>, does: TimerId -> seq<TimerCall>,
                                        i: nat, j: nat)
    requires |trace| <= |due| + 1 && Turns(trace, due, does) && i <= j < |trace|
    ensures TasksPersist(trace[i], trace[j])
    decreases j - i
  {
    if i < j {
      assert Turn(trace[i], trace[i + 1], does(due[i]));
      assert TasksPersist(trace[i], trace[i + 1]);
      TurnsPersist(trace, due, does, i + 1, j);
    }
  }

  /** In the end, a task that could not run at its turn has no callback or has been cancelled. */
  lemma BatchEndsKnown(trace: seq<Timers>, due: seq<TimerId>, does: TimerId -> seq<TimerCall>, i: nat)
    requires |trace| == |due| + 1 && Turns(trace, due, does) && i < |due|
    ensures var u := trace[|due|];
            due[i] in u.tasks && (Runs(trace[i], due[i]) || u.tasks[due[i]].cancelled || !u.tasks[due[i]].hasCallback)
  {
    assert Turn(trace[i], trace[i + 1], does(due[i]));
    assert trace[i].ready[0] == due[i];
    TurnsPersist(trace, due, does, i, |due|);
  }

  /** A batch of tasks has been worked off up to the last state of `trace`. */
  ghost predicate BatchSoFar(trace: seq<Timers>, due: seq<TimerId>, does: TimerId -> seq<TimerCall>) {
    && 0 < |trace| <= |due| + 1 && Turns(trace, due, does) && Distinct(due)
    && var first, last, done := trace[0], trace[|trace| - 1], |trace| - 1;
       && last.ready == due[done..] && last.current == None && last.batch == first.batch
       && |first.starts| <= |last.starts| && last.starts[..|first.starts|] == first.starts
       && StartedSoFar(due, done, trace, last.starts[|first.starts|..], first.batch)
  }

  lemma BatchBegins(t: Timers, does: TimerId -> seq<TimerCall>)
    requires Distinct(t.ready) && t.current == None
    ensures BatchSoFar([t], t.ready, does)
  {
  }

  lemma BatchShape(trace: seq<Timers>, due: seq<TimerId>, does: TimerId -> seq<TimerCall>)
    requires BatchSoFar(trace, due, does)
    ensures 0 < |trace| <= |due| + 1 && Turns(trace, due, does)
    ensures var first, last := trace[0], trace[|trace| - 1];
            && last.ready == due[|trace| - 1..] && last.current == None && last.batch == first.batch
            && first.starts <= last.starts
  {
  }

  lemma BatchTurn(trace: seq<Timers>, due: seq<TimerId>, does: TimerId -> seq<TimerCall>, u: Timers)
    requires BatchSoFar(trace, due, does) && |trace| <= |due| && Turn(trace[|trace| - 1], u, does(due[|trace| - 1]))
    ensures BatchSoFar(trace + [u], due, does)
  {
    var n, done, t := |trace[0].starts|, |trace| - 1, trace[|trace| - 1];
    assert t.ready[0] == due[done] && u.ready == due[done + 1..];
    TurnStarts(t, u, does(due[done]));
    hide Turn, StartedSoFar, Runs;
    assert t.starts[..n] == u.starts[..n];
    StartedMore(due, done, trace, t.starts[n..], u.starts[n..], t.batch, u);
    TurnsMore(trace, due, does, u);
    hide Turns, Distinct;
    assert (trace + [u])[0] == trace[0];
  }

  lemma TurnsMore(trace: seq<Timers>, due: seq<TimerId>, does: TimerId -> seq<TimerCall>, u: Timers)
    requires 0 < |trace| <= |due| && Turns(trace, due, does) && trace[|trace| - 1].ready == due[|trace| - 1..]
    requires Turn(trace[|trace| - 1], u, does(due[|trace| - 1]))
    ensures Turns(trace + [u], due, does)
  {
    hide Turn;
  }

  lemma TurnStarts(t: Timers, u: Timers, calls: seq<TimerCall>)
    requires Turn(t, u, calls)
    ensures u.ready == t.ready[1..] && u.batch == t.batch && u.current == None
    ensures if Runs(t, t.ready[0])
            then |u.starts| == |t.starts| + 1 && u.starts[..|t.starts|] == t.starts
                 && u.starts[|t.starts|].id == t.ready[0] && u.starts[|t.starts|].batch == t.batch
            else u.starts == t.starts
  {
  }

  lemma BatchEnds(trace: seq<Timers>, due: seq<TimerId>, does: TimerId -> seq<TimerCall>)
    requires BatchSoFar(trace, due, does) && trace[|trace| - 1].ready == []
    ensures |trace| == |due| + 1
    ensures var u := trace[|due|];
            var more := u.starts[|trace[0].starts|..];
            && StartedFrom(due, more, u.batch)
            && (forall i :: 0 <= i < |due| ==> (Started(more, due[i]) <==> Runs(trace[i], due[i])))
            && (forall i :: 0 <= i < |due| ==>
                  && due[i] in u.tasks
                  && (Started(more, due[i]) || u.tasks[due[i]].cancelled || !u.tasks[due[i]].hasCallback))
  {
    assert due[..|due|] == due;
    forall i | 0 <= i < |due|
      ensures var u := trace[|due|];
              && due[i] in u.tasks
              && (Runs(trace[i], due[i]) || u.tasks[due[i]].cancelled || !u.tasks[due[i]].hasCallback)
    {
      BatchEndsKnown(trace, due, does, i);
    }
  }

  lemma BatchKnown(t: Timers, now: int)
    requires TimerInv(t, now)
    ensures Distinct(t.ready) && forall i :: 0 <= i < |t.ready| ==> t.ready[i] in t.tasks
  {
  }

  lemma IdsKnown(t: Timers, now: int)
    requires TimerInv(t, now)
    ensures IdsBelow(t)
  {
    forall id | id in t.tasks
      ensures id < t.nextId
    {
      assert TaskOk(t, id, now);
    }
  }

  /** A timer under a new id, in map and queue; everything else as it was. */
  ghost predicate IsNew(t: Timers, u: Timers, id: TimerId) {
    && id !in t.tasks && id !in t.timers && id !in t.heap && id in u.tasks
    && u.tasks == t.tasks[id := u.tasks[id]] && !u.tasks[id].cancelled
    && u.timers == t.timers + {id} && u.heap == t.heap + multiset{id}
    && u.ready == t.ready && u.current == t.current && u.starts == t.starts
  }

  lemma NewIdKnown(t: Timers, now: int)
    requires TimerInv(t, now)
    ensures t.nextId !in t.tasks && t.nextId !in t.timers && t.nextId !in t.heap
  {
    assert TaskOk(t, t.nextId, now);
  }

  lemma CurrentKnown(t: Timers, now: int)
    requires TimerInv(t, now) && t.current.Some?
    ensures var id := t.current.value.id;
            id in t.tasks && t.heap[id] == 0 && (t.tasks[id].cancelled <==> id !in t.timers)
  {
    assert IsCurrent(t, t.current.value.id) && TaskOk(t, t.current.value.id, now);
  }

  lemma PurgeTop(t: Timers, heap: multiset<TimerId>, top: TimerId)
    requires PurgesTo(t, heap) && !IsLive(t, top)
    ensures PurgesTo(t, heap - multiset{top})
  {
  }

  /** The entry on top of the purged queue, if live, is an earliest live timer. */
  lemma TimeoutFromTop(t: Timers, heap: multiset<TimerId>, top: TimerId, now: int)
    requires PurgesTo(t, heap) && Live(t) <= t.tasks.Keys
    requires forall id :: id in heap ==> id in t.tasks
    requires top in heap && IsLive(t, top)
    requires forall id :: id in heap ==> t.tasks[top].expire <= t.tasks[id].expire
    ensures PollTimeoutMs(t, now) == Min(MAX_WAIT_MS, Max(0, (t.tasks[top].expire - now) / MS))
  {
    assert heap[top] <= t.heap[top];
    assert top in Live(t);
    forall id | id in Live(t)
      ensures t.tasks[top].expire <= t.tasks[id].expire
    {
      assert heap[id] == t.heap[id];
    }
  }

  lemma TimeoutWithoutTimers(t: Timers, now: int)
    requires PurgesTo(t, multiset{}) && Live(t) <= t.tasks.Keys
    ensures PollTimeoutMs(t, now) == MAX_WAIT_MS
  {
  }

  class EventLoop {
    var clock: int                       // steady_clock
    var tasks: map<TimerId, TimerTask>
    var delayedTasks: multiset<TimerId>
    var timers: set<TimerId>
    var nextTimerId: TimerId
    var readyTasks: seq<TimerId>
    var current: Option<Current>
    ghost var batch: nat
    ghost var starts: seq<Start>

    ghost function View(): Timers
      reads this
    {
      Timers(tasks, delayedTasks, timers, nextTimerId, readyTasks, current, batch, starts)
    }

    ghost predicate Valid()
      reads this
    {
      TimerInv(View(), clock)
    }

    constructor ()
      ensures Valid() && View() == NO_TIMERS
    {
      clock, tasks, delayedTasks, timers, nextTimerId := 0, map[], multiset{}, {}, 1;
      readyTasks, current, batch, starts := [], None, 0, [];
    }

    /** The clock never goes back; how far it moves is not up to the loop. */
    method Now() returns (now: int)
      requires Valid()
      modifies this`clock
      ensures Valid() && now == clock >= old(clock)
    {
      var reading: int := *;
      if reading > clock {
        ClockKeepsInv(View(), clock, reading);
        clock := reading;
      }
      now := clock;
    }

    method RunAt(when: int, hasCallback: bool) returns (id: TimerId)
      requires Valid()
      modifies this`tasks, this`delayedTasks, this`timers, this`nextTimerId
      ensures Valid() && id == old(nextTimerId)
      ensures View() == Add(old(View()), OneShot(when, hasCallback))
      ensures IsNew(old(View()), View(), id)
      ensures !tasks[id].repeat && tasks[id].expire == when && tasks[id].hasCallback == hasCallback
    {
      NewIdKnown(View(), clock);
      var task := OneShot(when, hasCallback);
      AddKeepsInv(View(), task, clock);
      id := nextTimerId;
      nextTimerId := nextTimerId + 1;
      tasks := tasks[id := task];
      timers := timers + {id};
      delayedTasks := delayedTasks + multiset{id};
    }

    method RunAfter(delayMs: int, hasCallback: bool) returns (id: TimerId)
      requires Valid()
      modifies this`clock, this`tasks, this`delayedTasks, this`timers, this`nextTimerId
      ensures Valid() && id == old(nextTimerId) && clock >= old(clock)
      ensures View() == Add(old(View()), OneShot(clock + Max(delayMs, 0) * MS, hasCallback))
    {
      var delay := delayMs;
      if delay < 0 {
        delay := 0;
      }
      var now := Now();
      id := RunAt(now + delay * MS, hasCallback);
    }

    method RunEvery(intervalMs: int, hasCallback: bool) returns (id: TimerId)
      requires Valid()
      modifies this`clock, this`tasks, this`delayedTasks, this`timers, this`nextTimerId
      ensures Valid() && id == old(nextTimerId) && clock >= old(clock)
      ensures View() == Add(old(View()), Periodic(clock, intervalMs, hasCallback))
      ensures IsNew(old(View()), View(), id)
      ensures tasks[id].repeat && tasks[id].created == clock && tasks[id].hasCallback == hasCallback
      ensures tasks[id].interval == Max(1, intervalMs) * 1_000_000 == tasks[id].expire - clock
    {
      hide TimerInv;
      var now := Now();
      NewIdKnown(View(), clock);
      var task := Periodic(now, intervalMs, hasCallback);
      AddKeepsInv(View(), task, clock);
      id := nextTimerId;
      nextTimerId := nextTimerId + 1;
      tasks := tasks[id := task];
      timers := timers + {id};
      delayedTasks := delayedTasks + multiset{id};
    }

    method Cancel(id: TimerId) returns (cancelled: bool)
      requires Valid()
      modifies this`tasks, this`timers
      ensures Valid() && cancelled == (id in old(timers))
      ensures id in old(timers) ==> id in old(tasks)
      ensures View() == CancelTimer(old(View()), id)
    {
      CancelKeepsInv(View(), id, clock);
      if id !in timers {
        return false;
      }
      tasks := tasks[id := tasks[id].(cancelled := true)];
      timers := timers - {id};
      cancelled := true;
    }

    /** priority_queue::top: some entry that expires first. */
    method Top() returns (top: TimerId)
      requires delayedTasks != multiset{} && forall id :: id in delayedTasks ==> id in tasks
      ensures top in delayedTasks
      ensures forall id :: id in delayedTasks ==> tasks[top].expire <= tasks[id].expire
    {
      MinimumExists(tasks, delayedTasks);
      top :| top in delayedTasks && forall id :: id in delayedTasks ==> tasks[top].expire <= tasks[id].expire;
    }

    /** The purging loop: drops dead entries until a live one is on top. */
    method PurgeAndPeek(now: int) returns (timeoutMs: int)
      requires Live(View()) <= tasks.Keys && forall id :: id in delayedTasks ==> id in tasks
      modifies this`delayedTasks
      ensures PurgesTo(old(View()), delayedTasks)
      ensures timeoutMs == PollTimeoutMs(old(View()), now)
    {
      hide Live, PollTimeoutMs;
      ghost var t := View();
      while delayedTasks != multiset{}
        invariant PurgesTo(t, delayedTasks)
        decreases |delayedTasks|
      {
        assert forall id :: id in delayedTasks ==> id in t.heap;
        var top := Top();
        if tasks[top].cancelled || top !in timers {
          PurgeTop(t, delayedTasks, top);
          delayedTasks := delayedTasks - multiset{top};
          continue;
        }
        TimeoutFromTop(t, delayedTasks, top, now);
        if tasks[top].expire <= now {
          return 0;
        }
        var remain := (tasks[top].expire - now) / MS;
        if remain <= 0 {
          return 0;
        }
        if remain > MAX_WAIT_MS {
          return MAX_WAIT_MS;
        }
        return remain;
      }
      TimeoutWithoutTimers(t, now);
      return MAX_WAIT_MS;
    }

    /** The lazily deleted queue gives the same timeout as the plain set of live timers,
        and purging it does not change that set. */
    method GetPollTimeoutMs() returns (timeoutMs: int)
      requires Valid()
      modifies this`clock, this`delayedTasks
      ensures Valid() && clock >= old(clock)
      ensures View() == old(View()).(heap := delayedTasks) && PurgesTo(old(View()), delayedTasks)
      ensures Live(View()) == Live(old(View())) <= old(tasks).Keys
      ensures timeoutMs == PollTimeoutMs(old(View()), clock)
      ensures 0 <= timeoutMs <= 10_000
      ensures forall ms :: 0 < ms <= 10_000 ==>
                (ms <= timeoutMs <==> LoopLaws.SleepIsSafe(old(View()), clock, ms))
    {
      hide TimerInv, PollTimeoutMs, Live, LoopLaws.SleepIsSafe;
      var now := Now();
      QueueKnown(View(), now);
      timeoutMs := PurgeAndPeek(now);
      PurgeKeepsInv(old(View()), delayedTasks, now);
      LoopLaws.TimeoutIsLongestSafeSleep(old(View()), now, 0);
      forall ms
        ensures 0 < ms <= 10_000 ==> (ms <= timeoutMs <==> LoopLaws.SleepIsSafe(old(View()), now, ms))
      {
        LoopLaws.TimeoutIsLongestSafeSleep(old(View()), now, ms);
      }
    }

    /** The popping loop of ProcessDelayedTasks. */
    method PopDue(now: int) returns (ready: seq<TimerId>)
      requires forall id :: id in delayedTasks ==> id in tasks && delayedTasks[id] == 1
      modifies this`delayedTasks
      ensures Collecting(old(View()), now, delayedTasks, ready)
      ensures forall id :: id in delayedTasks ==> id in tasks && tasks[id].expire > now
    {
      hide Collecting;
      ghost var t := View();
      CollectNothing(t, now);
      ready := [];
      while delayedTasks != multiset{}
        invariant Collecting(t, now, delayedTasks, ready)
        invariant forall id :: id in delayedTasks ==> id in t.heap && delayedTasks[id] == t.heap[id]
        decreases |delayedTasks|
      {
        var top := Top();
        if tasks[top].expire > now {
          break;
        }
        CollectTop(t, now, delayedTasks, ready, top);
        delayedTasks := delayedTasks - multiset{top};
        if tasks[top].cancelled || top !in timers {
          continue;
        }
        ready := ready + [top];
      }
    }

    /** The locked section of ProcessDelayedTasks. */
    method CollectDue()
      requires Valid() && readyTasks == [] && current == None
      modifies this`clock, this`delayedTasks, this`readyTasks, this`batch
      ensures Valid() && clock >= old(clock)
      ensures View() == TakeBatch(old(View()), delayedTasks, readyTasks)
      ensures forall id :: id in old(delayedTasks) ==> id in old(tasks)
      ensures NotDue(old(View()), clock, delayedTasks) && IsBatch(old(View()), clock, readyTasks)
    {
      hide TimerInv, IsBatch, NotDue, Collecting;
      var now := Now();
      QueueKnown(View(), now);
      ghost var t := View();
      var ready := PopDue(now);
      CollectedAll(t, now, delayedTasks, ready);
      BatchKeepsInv(t, delayedTasks, ready, now);
      readyTasks := ready;
      batch := batch + 1;
    }

    method MakeTimerCall(call: TimerCall)
      requires Valid()
      modifies this`clock, this`tasks, this`delayedTasks, this`timers, this`nextTimerId
      ensures Valid() && clock >= old(clock)
      ensures View() == CallStep(old(View()), call, clock)
    {
      hide TimerInv;
      match call
      case CallRunAt(when) => var id := RunAt(when, true);
      case CallRunAfter(delayMs) => var id := RunAfter(delayMs, true);
      case CallRunEvery(intervalMs) => var id := RunEvery(intervalMs, true);
      case CallCancel(id) => var ok := Cancel(id);
    }

    /** What a callback does to the loop's own timers. */
    method RunTimerCalls(calls: seq<TimerCall>) returns (ghost at: seq<int>)
      requires Valid()
      modifies this`clock, this`tasks, this`delayedTasks, this`timers, this`nextTimerId
      ensures Valid() && clock >= old(clock)
      ensures |at| == |calls| && (forall i :: 0 <= i < |at| ==> old(clock) <= at[i] <= clock)
      ensures View() == RunCalls(old(View()), calls, at)
    {
      hide TimerInv, CallStep;
      at := [];
      for i := 0 to |calls|
        invariant Valid() && clock >= old(clock)
        invariant |at| == i && forall j :: 0 <= j < i ==> old(clock) <= at[j] <= clock
        invariant View() == RunCalls(old(View()), calls[..i], at)
      {
        MakeTimerCall(calls[i]);
        RunCallsMore(old(View()), calls, at, i, clock);
        at := at + [clock];
      }
      assert calls[..|calls|] == calls;
    }

    /** The loop after the locked section; `does` says what each callback calls. Whatever that is, the
        batch is exactly the live timers that were due, it is worked off turn by turn (`trace`), and each
        task starts exactly if at its turn it has a callback and has not been cancelled. */
    method ProcessDelayedTasks(does: TimerId -> seq<TimerCall>)
      returns (ghost due: seq<TimerId>, ghost at: int, ghost trace: seq<Timers>)
      requires Valid() && readyTasks == [] && current == None
      modifies this
      ensures Valid() && old(clock) <= at <= clock
      ensures forall id :: id in old(delayedTasks) ==> id in old(tasks)
      ensures IsBatch(old(View()), at, due)
      ensures readyTasks == [] && current == None
      ensures batch == old(batch) + 1 && old(starts) <= starts
      ensures |trace| == |due| + 1 && Turns(trace, due, does) && trace[|due|] == View()
      ensures NotDue(old(View()), at, trace[0].heap) && trace[0] == TakeBatch(old(View()), trace[0].heap, due)
      ensures StartedFrom(due, starts[|old(starts)|..], batch)
      ensures forall i :: 0 <= i < |due| ==> (Started(starts[|old(starts)|..], due[i]) <==> Runs(trace[i], due[i]))
      ensures forall i :: 0 <= i < |due| ==>
                && due[i] in tasks
                && (Started(starts[|old(starts)|..], due[i]) || tasks[due[i]].cancelled || !tasks[due[i]].hasCallback)
    {
      hide TimerInv, IsBatch, NotDue;
      CollectDue();
      due, at := readyTasks, clock;
      trace := RunBatch(does);
    }

    /** The loop over the batch. */
    method RunBatch(does: TimerId -> seq<TimerCall>) returns (ghost trace: seq<Timers>)
      requires Valid() && current == None
      modifies this
      ensures Valid() && clock >= old(clock)
      ensures readyTasks == [] && current == None && batch == old(batch) && old(starts) <= starts
      ensures var due, more := old(readyTasks), starts[|old(starts)|..];
              && |trace| == |due| + 1 && Turns(trace, due, does) && trace[0] == old(View()) && trace[|due|] == View()
              && StartedFrom(due, more, batch)
              && (forall i :: 0 <= i < |due| ==> (Started(more, due[i]) <==> Runs(trace[i], due[i])))
              && (forall i :: 0 <= i < |due| ==>
                    && due[i] in tasks
                    && (Started(more, due[i]) || tasks[due[i]].cancelled || !tasks[due[i]].hasCallback))
    {
      ghost var due := readyTasks;
      trace := [View()];
      BatchKnown(View(), clock);
      BatchBegins(View(), does);
      hide TimerInv, BatchSoFar, Turns, Turn, TaskTurn, StartedFrom, Started, Runs;
      while readyTasks != []
        invariant Valid() && clock >= old(clock) && |trace| > 0
        invariant BatchSoFar(trace, due, does) && trace[0] == old(View()) && trace[|trace| - 1] == View()
        decreases |readyTasks|
      {
        BatchShape(trace, due, does);
        ghost var now, was := clock, View();
        var id := readyTasks[0];
        ghost var calledAt := RunOneTask(does);
        TurnTaken(was, now, does(id), calledAt, clock);
        BatchTurn(trace, due, does, View());
        trace := trace + [View()];
      }
      BatchShape(trace, due, does);
      BatchEnds(trace, due, does);
    }

    /** One turn: fetch the task, call it unless it is cancelled or empty, and put it away. */
    method RunOneTask(does: TimerId -> seq<TimerCall>) returns (ghost at: seq<int>)
      requires Valid() && readyTasks != [] && current == None
      modifies this
      ensures Valid() && clock >= old(clock)
      ensures old(readyTasks)[0] in old(tasks) && IdsBelow(old(View())) && |at| == |does(old(readyTasks)[0])|
      ensures forall i :: 0 <= i < |at| ==> old(clock) <= at[i] <= clock
      ensures View() == TaskTurn(old(View()), old(clock), does(old(readyTasks)[0]), at, clock)
    {
      hide TimerInv;
      FetchKeepsInv(View(), clock);
      IdsKnown(View(), clock);
      var id := readyTasks[0];
      ghost var now := clock;
      at := seq(|does(id)|, _ => now);
      readyTasks := readyTasks[1..];
      if !tasks[id].cancelled && tasks[id].hasCallback {
        current := Some(Current(id, ToCall));
        StartKeepsInv(View(), clock);
        starts := starts + [Start(id, clock, tasks[id].expire, tasks[id].runs + 1, batch)];
        tasks := tasks[id := tasks[id].(runs := tasks[id].runs + 1)];
        current := Some(Current(id, InCallback));
        at := RunTimerCalls(does(id));
      } else {
        current := Some(Current(id, Skipped));
      }
      FinishTask();
    }

    method FinishTask()
      requires Valid() && current.Some? && current.value.stage != ToCall
      modifies this`clock, this`tasks, this`timers, this`delayedTasks, this`current
      ensures Valid() && clock >= old(clock)
      ensures old(current).value.id in old(tasks) && View() == Finish(old(View()), clock)
      ensures var id := old(current).value.id;
              if old(tasks)[id].repeat && id in old(timers)
              then id in timers && delayedTasks[id] == 1 && tasks[id].expire == clock + old(tasks)[id].interval
              else id !in timers && delayedTasks == old(delayedTasks) && tasks == old(tasks)
    {
      hide TimerInv;
      var now := Now();
      FinishKeepsInv(View(), clock);
      CurrentKnown(View(), clock);
      var id := current.value.id;
      var task := tasks[id];
      if task.repeat {
        if id in timers && !task.cancelled {
          tasks := tasks[id := task.(expire := now + task.interval)];
          delayedTasks := delayedTasks + multiset{id};
        }
      } else {
        timers := timers - {id};
      }
      current := None;
    }
  }
}
