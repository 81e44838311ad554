/** The timer bookkeeping of EventLoop: a priority queue with lazy deletion, the side map of
    live timers, and the batch that ProcessDelayedTasks works through. Times are nanoseconds.
    A TimerTask is shared by pointer between queue, map and batch; here they share its id. */
module TimerQueue {
  import opened Bytes

  type TimerId = nat

  const MS: int := 1_000_000
  const MAX_WAIT_MS: int := 10_000

  /** The last two fields are history: when RunEvery was called, and how often the callback started. */
  datatype TimerTask = TimerTask(expire: int, interval: int, repeat: bool, cancelled: bool,
                                 hasCallback: bool, created: int, runs: nat)

  /** Where the loop is with the task at hand: past the cancelled test and about to call,
      inside the callback, or past the test without calling. */
  datatype Stage = ToCall | InCallback | Skipped

  datatype Current = Current(id: TimerId, stage: Stage)

  /** One start of a callback: its `run`-th, in batch number `batch`. */
  datatype Start = Start(id: TimerId, at: int, expiry: int, run: nat, batch: nat)

  datatype Timers = Timers(
    tasks: map<TimerId, TimerTask>,
    heap: multiset<TimerId>,
    timers: set<TimerId>,
    nextId: TimerId,
    ready: seq<TimerId>,
    current: Option<Current>,
    // history
    batch: nat,
    starts: seq<Start>)

  const NO_TIMERS := Timers(map[], multiset{}, {}, 1, [], None, 0, [])

  // ---------- The operations, one per locked section ----------

  /** RunAt and RunEvery: a fresh task goes into the map and the queue. */
  function Add(t: Timers, task: TimerTask): Timers {
    t.(tasks := t.tasks[t.nextId := task],
       heap := t.heap + multiset{t.nextId},
       timers := t.timers + {t.nextId},
       nextId := t.nextId + 1)
  }

  function OneShot(when: int, hasCallback: bool): TimerTask {
    TimerTask(when, 0, false, false, hasCallback, when, 0)
  }

  /** A period that is not positive becomes one millisecond. */
  function Periodic(now: int, intervalMs: int, hasCallback: bool): TimerTask {
    var interval := (if intervalMs <= 0 then 1 else intervalMs) * MS;
    TimerTask(now + interval, interval, true, false, hasCallback, now, 0)
  }

  /** A call of RunAt, or of RunEvery with the clock reading that it starts from. */
  datatype NewTimer = At(when: int, hasCallback: bool) | Every(called: int, intervalMs: int, hasCallback: bool)

  function NewTask(timer: NewTimer): TimerTask {
    match timer
    case At(when, hasCallback) => OneShot(when, hasCallback)
    case Every(called, intervalMs, hasCallback) => Periodic(called, intervalMs, hasCallback)
  }

  function CancelTimer(t: Timers, id: TimerId): Timers
    requires id in t.timers ==> id in t.tasks
  {
    if id !in t.timers then t
    else t.(tasks := t.tasks[id := t.tasks[id].(cancelled := true)], timers := t.timers - {id})
  }

  predicate IsLive(t: Timers, id: TimerId) {
    id in t.timers && id in t.tasks && !t.tasks[id].cancelled
  }

  /** The plain set of timers that the queue stands for. */
  ghost function Live(t: Timers): set<TimerId> {
    set id | id in t.heap && IsLive(t, id)
  }

  /** GetPollTimeoutMs may drop dead entries from the queue and nothing else. */
  ghost predicate PurgesTo(t: Timers, heap: multiset<TimerId>) {
    && heap <= t.heap
    && (forall id :: id in t.heap && IsLive(t, id) ==> heap[id] == t.heap[id])
  }

  ghost function Earliest(tasks: map<TimerId, TimerTask>, ids: set<TimerId>): (e: int)
    requires ids != {} && ids <= tasks.Keys
    ensures exists id :: id in ids && tasks[id].expire == e
    ensures forall id :: id in ids ==> e <= tasks[id].expire
  {
    var id :| id in ids;
    if ids == {id} then tasks[id].expire
    else
      assert ids == ids - {id} + {id};
      Min(tasks[id].expire, Earliest(tasks, ids - {id}))
  }

  /** What the poll timeout has to be, on the plain set of live timers. */
  ghost function PollTimeoutMs(t: Timers, now: int): int
    requires Live(t) <= t.tasks.Keys
  {
    if Live(t) == {} then MAX_WAIT_MS
    else Min(MAX_WAIT_MS, Max(0, (Earliest(t.tasks, Live(t)) - now) / MS))
  }

  /** The queue without the entries that are due, live or not. */
  ghost predicate NotDue(t: Timers, now: int, heap: multiset<TimerId>)
    requires forall id :: id in t.heap ==> id in t.tasks
  {
    forall id :: heap[id] == if id in t.heap && t.tasks[id].expire > now then t.heap[id] else 0
  }

  ghost predicate SortedByExpiry(tasks: map<TimerId, TimerTask>, ids: seq<TimerId>)
    requires forall i :: 0 <= i < |ids| ==> ids[i] in tasks
  {
    forall i, j :: 0 <= i < j < |ids| ==> tasks[ids[i]].expire <= tasks[ids[j]].expire
  }

  ghost predicate Distinct(ids: seq<TimerId>) {
    forall i, j :: 0 <= i < j < |ids| ==> ids[i] != ids[j]
  }

  /** A batch: exactly the live timers due now, each once, by expiry. Ties are in any order. */
  ghost predicate IsBatch(t: Timers, now: int, ids: seq<TimerId>)
    requires forall id :: id in t.heap ==> id in t.tasks
  {
    && (forall id :: id in ids <==> id in t.heap && IsLive(t, id) && t.tasks[id].expire <= now)
    && Distinct(ids)
    && SortedByExpiry(t.tasks, ids)
  }

  function TakeBatch(t: Timers, heap: multiset<TimerId>, ids: seq<TimerId>): Timers {
    t.(heap := heap, ready := ids, batch := t.batch + 1)
  }

  /** The loop fetches the next task of the batch and tests whether to call it. */
  function Fetch(t: Timers): Timers
    requires t.ready != [] && t.ready[0] in t.tasks
  {
    var task := t.tasks[t.ready[0]];
    t.(ready := t.ready[1..],
       current := Some(Current(t.ready[0], if !task.cancelled && task.hasCallback then ToCall else Skipped)))
  }

  function StartCallback(t: Timers, now: int): Timers
    requires t.current.Some? && t.current.value.id in t.tasks
  {
    var id := t.current.value.id;
    var task := t.tasks[id];
    t.(tasks := t.tasks[id := task.(runs := task.runs + 1)],
       current := Some(Current(id, InCallback)),
       starts := t.starts + [Start(id, now, task.expire, task.runs + 1, t.batch)])
  }

  /** After the callback: a live periodic task goes back into the queue, a one-shot leaves the map. */
  function Finish(t: Timers, now: int): Timers
    requires t.current.Some? && t.current.value.id in t.tasks
  {
    var id := t.current.value.id;
    var task := t.tasks[id];
    var done := t.(current := None);
    if !task.repeat then done.(timers := t.timers - {id})
    else if id in t.timers && !task.cancelled then
      done.(tasks := t.tasks[id := task.(expire := now + task.interval)], heap := t.heap + multiset{id})
    else done
  }

  // ---------- Bookkeeping invariant ----------

  ghost predicate IsCurrent(t: Timers, id: TimerId) {
    t.current.Some? && t.current.value.id == id
  }

  ghost predicate Located(t: Timers, id: TimerId) {
    id in t.heap || id in t.ready || IsCurrent(t, id)
  }

  /** A task sits at most once in queue, batch and hand together; an id in the map sits in one of
      them; and a task found there is cancelled iff its id has left the map. */
  ghost predicate Placed(t: Timers, id: TimerId) {
    && t.heap[id] <= 1
    && (id in t.heap ==> id !in t.ready && !IsCurrent(t, id))
    && (id in t.ready ==> !IsCurrent(t, id))
    && (id in t.timers ==> Located(t, id))
    && (Located(t, id) ==> id in t.tasks && (t.tasks[id].cancelled <==> id !in t.timers))
    && (id in t.tasks ==> id < t.nextId)
  }

  /** A task that can start without being re-queued first. */
  ghost predicate Waiting(t: Timers, id: TimerId) {
    id in t.heap || id in t.ready || t.current == Some(Current(id, ToCall))
  }

  /** A one-shot starts at most once: while it waits it has not started yet. */
  ghost predicate Once(t: Timers, id: TimerId) {
    id in t.tasks && !t.tasks[id].repeat ==>
      t.tasks[id].runs <= 1 && (Waiting(t, id) ==> t.tasks[id].runs == 0)
  }

  /** Earliest allowed start of a periodic task's k-th run. */
  function DueTime(task: TimerTask, k: nat): int {
    task.created + k * task.interval
  }

  /** The run that a located periodic task is waiting for, or is in. */
  ghost function RunNumber(t: Timers, id: TimerId): nat
    requires id in t.tasks
  {
    t.tasks[id].runs + if t.current == Some(Current(id, InCallback)) then 0 else 1
  }

  ghost predicate InTime(t: Timers, id: TimerId, now: int) {
    id in t.tasks ==>
      && (id in t.ready || IsCurrent(t, id) ==> t.tasks[id].expire <= now)
      && (t.tasks[id].repeat ==>
            && t.tasks[id].interval >= MS
            && (Located(t, id) ==> t.tasks[id].expire >= DueTime(t.tasks[id], RunNumber(t, id))))
  }

  ghost predicate TaskOk(t: Timers, id: TimerId, now: int) {
    Placed(t, id) && Once(t, id) && InTime(t, id, now)
  }

  ghost predicate Book(t: Timers, now: int) {
    Distinct(t.ready) && forall id :: TaskOk(t, id, now)
  }

  /** The batch is in expiry order, and what has started from it does not come after what has not. */
  ghost predicate InOrder(t: Timers)
    requires forall id :: id in t.ready || IsCurrent(t, id) ==> id in t.tasks
  {
    && SortedByExpiry(t.tasks, t.ready)
    && (forall c, id :: IsCurrent(t, c) && id in t.ready ==> t.tasks[c].expire <= t.tasks[id].expire)
    && (forall i :: 0 <= i < |t.starts| ==> t.starts[i].batch <= t.batch)
    && (forall i, id :: 0 <= i < |t.starts| && t.starts[i].batch == t.batch && (id in t.ready || IsCurrent(t, id)) ==>
          t.starts[i].expiry <= t.tasks[id].expire)
  }

  /** How often a callback has started. */
  function StartsOf(starts: seq<Start>, id: TimerId): nat {
    if starts == [] then 0
    else StartsOf(starts[..|starts| - 1], id) + if starts[|starts| - 1].id == id then 1 else 0
  }

  /** A start is never early, and a periodic task's k-th start not before its k-th due time. */
  ghost predicate GoodStart(tasks: map<TimerId, TimerTask>, starts: seq<Start>, i: nat)
    requires i < |starts|
  {
    var s := starts[i];
    && s.id in tasks
    && s.run == StartsOf(starts[..i + 1], s.id)
    && s.expiry <= s.at
    && (tasks[s.id].repeat ==> s.at >= DueTime(tasks[s.id], s.run))
  }

  /** Within one batch callbacks start by expiry. */
  ghost predicate StartsSorted(starts: seq<Start>) {
    forall i, j :: 0 <= i < j < |starts| && starts[i].batch == starts[j].batch ==>
      starts[i].expiry <= starts[j].expiry
  }

  ghost predicate GoodStarts(t: Timers) {
    && (forall i :: 0 <= i < |t.starts| ==> GoodStart(t.tasks, t.starts, i))
    && StartsSorted(t.starts)
    && (forall id :: id in t.tasks ==> t.tasks[id].runs == StartsOf(t.starts, id))
  }

  ghost predicate TimerInv(t: Timers, now: int) {
    && Book(t, now)
    && (forall id :: Located(t, id) ==> Placed(t, id) && id in t.tasks)
    && InOrder(t)
    && GoodStarts(t)
  }

  // ---------- Every operation keeps it ----------

  /** What no operation but a start changes about a task. */
  ghost predicate SameHistory(a: TimerTask, b: TimerTask) {
    a.created == b.created && a.interval == b.interval && a.repeat == b.repeat && a.runs == b.runs
  }

  lemma StartsFrame(t: Timers, u: Timers)
    requires GoodStarts(t) && u.starts == t.starts
    requires forall id :: id in t.tasks ==> id in u.tasks && SameHistory(t.tasks[id], u.tasks[id])
    requires forall id :: id in u.tasks && id !in t.tasks ==> u.tasks[id].runs == 0
    ensures GoodStarts(u)
  {
    forall i | 0 <= i < |u.starts|
      ensures GoodStart(u.tasks, u.starts, i)
    {
      assert GoodStart(t.tasks, t.starts, i);
    }
    forall id | id in u.tasks && id !in t.tasks
      ensures StartsOf(u.starts, id) == 0
    {
      forall i | 0 <= i < |t.starts|
        ensures t.starts[i].id != id
      {
        assert GoodStart(t.tasks, t.starts, i);
      }
      StartsOfUnknown(t.starts, id);
    }
  }

  lemma {:induction false} StartsOfUnknown(starts: seq<Start>, id: TimerId)
    requires forall i :: 0 <= i < |starts| ==> starts[i].id != id
    ensures StartsOf(starts, id) == 0
  {
    if starts != [] {
      StartsOfUnknown(starts[..|starts| - 1], id);
    }
  }

  /** Placement facts that hold of every located id. */
  lemma LocatedKnown(t: Timers, now: int)
    requires Book(t, now)
    ensures forall id :: Located(t, id) ==> Placed(t, id) && id in t.tasks
  {
    forall id | Located(t, id)
      ensures Placed(t, id) && id in t.tasks
    {
      assert TaskOk(t, id, now);
    }
  }

  lemma QueueKnown(t: Timers, now: int)
    requires TimerInv(t, now)
    ensures forall id :: id in t.heap ==> id in t.tasks && t.heap[id] == 1
    ensures Live(t) <= t.tasks.Keys
  {
    forall id | id in t.heap
      ensures id in t.tasks && t.heap[id] == 1
    {
      assert Located(t, id) && TaskOk(t, id, now);
    }
  }

  ghost predicate IsNewTask(task: TimerTask) {
    && !task.cancelled && task.runs == 0
    && (task.repeat ==> task.interval >= MS && task.expire >= task.created + task.interval)
  }

  lemma AddKeepsInv(t: Timers, task: TimerTask, now: int)
    requires TimerInv(t, now) && IsNewTask(task)
    ensures TimerInv(Add(t, task), now)
    ensures t.nextId !in t.tasks
  {
    var u := Add(t, task);
    assert TaskOk(t, t.nextId, now);
    assert DueTime(task, 1) == task.created + task.interval;
    forall id
      ensures TaskOk(u, id, now)
    {
      assert TaskOk(t, id, now);
    }
    LocatedKnown(u, now);
    hide TaskOk, GoodStarts;
    StartsFrame(t, u);
  }

  lemma CancelKeepsInv(t: Timers, id: TimerId, now: int)
    requires TimerInv(t, now)
    ensures id in t.timers ==> id in t.tasks
    ensures TimerInv(CancelTimer(t, id), now)
  {
    assert TaskOk(t, id, now);
    var u := CancelTimer(t, id);
    CancelKeepsBook(t, id, now);
    LocatedKnown(u, now);
    hide Book, TaskOk, GoodStarts;
    StartsFrame(t, u);
  }

  lemma CancelKeepsBook(t: Timers, id: TimerId, now: int)
    requires Book(t, now) && (id in t.timers ==> id in t.tasks)
    ensures Book(CancelTimer(t, id), now)
  {
    assert TaskOk(t, id, now);
    forall x
      ensures TaskOk(CancelTimer(t, id), x, now)
    {
      assert TaskOk(t, x, now);
      CancelKeepsTask(t, id, x, now);
    }
  }

  lemma CancelKeepsTask(t: Timers, id: TimerId, x: TimerId, now: int)
    requires TaskOk(t, id, now) && TaskOk(t, x, now)
    ensures id in t.timers ==> id in t.tasks
    ensures TaskOk(CancelTimer(t, id), x, now)
  {
  }

  lemma PurgeKeepsInv(t: Timers, heap: multiset<TimerId>, now: int)
    requires TimerInv(t, now) && PurgesTo(t, heap)
    ensures TimerInv(t.(heap := heap), now)
    ensures Live(t.(heap := heap)) == Live(t)
  {
    var u := t.(heap := heap);
    forall x
      ensures TaskOk(u, x, now) && (x in t.heap && IsLive(t, x) <==> x in heap && IsLive(u, x))
    {
      assert TaskOk(t, x, now);
      assert heap[x] <= t.heap[x];
    }
    LocatedKnown(u, now);
    StartsFrame(t, u);
  }

  lemma BatchKeepsInv(t: Timers, heap: multiset<TimerId>, ids: seq<TimerId>, now: int)
    requires TimerInv(t, now) && t.ready == [] && t.current == None
    requires NotDue(t, now, heap) && IsBatch(t, now, ids)
    ensures TimerInv(TakeBatch(t, heap, ids), now)
  {
    var u := TakeBatch(t, heap, ids);
    forall x
      ensures TaskOk(u, x, now)
    {
      assert TaskOk(t, x, now);
      assert heap[x] == if x in t.heap && t.tasks[x].expire > now then t.heap[x] else 0;
      assert x in ids <==> x in t.heap && IsLive(t, x) && t.tasks[x].expire <= now;
    }
    LocatedKnown(u, now);
    StartsFrame(t, u);
  }

  lemma FetchKeepsInv(t: Timers, now: int)
    requires TimerInv(t, now) && t.ready != [] && t.current == None
    ensures t.ready[0] in t.tasks && TimerInv(Fetch(t), now)
  {
    assert Located(t, t.ready[0]);
    FetchKeepsBook(t, now);
    LocatedKnown(Fetch(t), now);
    hide Book, TaskOk, GoodStarts;
    FetchKeepsOrder(t);
    StartsFrame(t, Fetch(t));
  }

  lemma FetchKeepsBook(t: Timers, now: int)
    requires Book(t, now) && t.ready != [] && t.current == None && t.ready[0] in t.tasks
    ensures Book(Fetch(t), now)
  {
    var head := t.ready[0];
    var u := Fetch(t);
    assert t.ready == [head] + u.ready;
    forall x
      ensures TaskOk(u, x, now)
    {
      assert TaskOk(t, x, now);
      assert x in t.ready <==> x == head || x in u.ready;
      if x in u.ready {
        var i :| 0 <= i < |u.ready| && u.ready[i] == x;
        assert t.ready[i + 1] == x && x != head;
      }
    }
  }

  lemma FetchKeepsOrder(t: Timers)
    requires forall id :: id in t.ready || IsCurrent(t, id) ==> id in t.tasks
    requires InOrder(t) && t.ready != [] && t.current == None
    ensures t.ready[0] in t.ready && (forall id :: id in Fetch(t).ready ==> id in t.tasks)
    ensures InOrder(Fetch(t))
  {
  }

  lemma StartKeepsInv(t: Timers, now: int)
    requires TimerInv(t, now) && t.current.Some? && t.current.value.stage == ToCall
    ensures t.current.value.id in t.tasks && TimerInv(StartCallback(t, now), now)
  {
    var id := t.current.value.id;
    assert Located(t, id) && TaskOk(t, id, now);
    var u := StartCallback(t, now);
    forall x
      ensures TaskOk(u, x, now)
    {
      assert TaskOk(t, x, now);
      StartKeepsTask(t, x, now);
    }
    LocatedKnown(u, now);
    StartKeepsLog(t, now);
    hide TaskOk, GoodStarts, Placed;
    StartKeepsOrder(t, now);
  }

  lemma StartKeepsOrder(t: Timers, now: int)
    requires t.current.Some? && t.current.value.id in t.tasks
    requires forall id :: id in t.ready || IsCurrent(t, id) ==> id in t.tasks
    requires InOrder(t)
    ensures forall id :: id in t.ready || IsCurrent(StartCallback(t, now), id) ==> id in StartCallback(t, now).tasks
    ensures InOrder(StartCallback(t, now))
  {
  }

  lemma StartKeepsTask(t: Timers, x: TimerId, now: int)
    requires t.current.Some? && t.current.value.stage == ToCall && t.current.value.id in t.tasks
    requires TaskOk(t, t.current.value.id, now) && TaskOk(t, x, now)
    ensures TaskOk(StartCallback(t, now), x, now)
  {
  }

  lemma StartKeepsLog(t: Timers, now: int)
    requires GoodStarts(t) && t.current.Some? && t.current.value.id in t.tasks
    requires var task := t.tasks[t.current.value.id];
             task.expire <= now && (task.repeat ==> now >= DueTime(task, task.runs + 1))
    requires forall i :: 0 <= i < |t.starts| && t.starts[i].batch == t.batch ==>
               t.starts[i].expiry <= t.tasks[t.current.value.id].expire
    ensures GoodStarts(StartCallback(t, now))
  {
    var u := StartCallback(t, now);
    var n := |t.starts|;
    assert u.starts[..n] == t.starts && u.starts[..n + 1] == u.starts;
    forall i | 0 <= i < |u.starts|
      ensures GoodStart(u.tasks, u.starts, i)
    {
      if i < n {
        assert GoodStart(t.tasks, t.starts, i);
        assert u.starts[..i + 1] == t.starts[..i + 1];
      }
    }
  }

  lemma FinishKeepsInv(t: Timers, now: int)
    requires TimerInv(t, now) && t.current.Some? && t.current.value.stage != ToCall
    ensures t.current.value.id in t.tasks && TimerInv(Finish(t, now), now)
  {
    var id := t.current.value.id;
    assert Located(t, id) && TaskOk(t, id, now);
    var u := Finish(t, now);
    forall x
      ensures TaskOk(u, x, now)
    {
      assert TaskOk(t, x, now);
      FinishKeepsTask(t, x, now);
    }
    LocatedKnown(u, now);
    StartsFrame(t, u);
  }

  lemma FinishKeepsTask(t: Timers, x: TimerId, now: int)
    requires t.current.Some? && t.current.value.stage != ToCall && t.current.value.id in t.tasks
    requires TaskOk(t, t.current.value.id, now) && TaskOk(t, x, now)
    ensures TaskOk(Finish(t, now), x, now)
  {
  }

  lemma ClockKeepsInv(t: Timers, now: int, later: int)
    requires TimerInv(t, now) && now <= later
    ensures TimerInv(t, later)
  {
    forall x
      ensures TaskOk(t, x, later)
    {
      assert TaskOk(t, x, now);
    }
  }
}
