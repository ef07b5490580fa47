/** The persistent retry queue, modules/common/retry_queue.py, without crashes and with every
    bookkeeping write made.  Tasks are numbered from 0 in the order they were enqueued (AUTOINCREMENT);
    times are in seconds.

    The queue is a table updated in place; its methods are proved against functions on that table, and
    the bounds over whole histories of the queue are about those functions. */
module RetryQueue {
  import opened Wrappers

  datatype Status = Pending | Done | Dead
  datatype Task = Task(kind: string, payload: string, attempts: nat, maxAttempts: int, nextRetry: nat, status: Status, lastError: string)
  {
    /** The number of attempts a task is allowed: one at least, whatever max_attempts says. */
    function Allowance(): nat { if maxAttempts > 1 then maxAttempts else 1 }

    function Remaining(): nat {
      if status.Pending? && attempts < Allowance() then Allowance() - attempts else 0
    }

    /** A pending task has an attempt left; none has had more than its allowance. */
    predicate Sound() { attempts <= Allowance() && (status.Pending? ==> attempts < Allowance()) }
  }

  const BATCH := 10
  const BACKOFF: seq<nat> := [10, 60, 300]

  function Delay(attempts: nat): nat
    requires attempts > 0
  {
    BACKOFF[if attempts - 1 < |BACKOFF| then attempts - 1 else |BACKOFF| - 1]
  }

  /** What became of an execution: no handler for the kind, or the handler returned or raised. */
  datatype Outcome = NoHandler | Returned | Raised(error: string)

  function Executed(t: Task, o: Outcome, now: nat): Task {
    var n := t.attempts + 1;
    match o
    case NoHandler => t.(attempts := n, status := Dead, lastError := "no handler for " + t.kind)
    case Returned => t.(attempts := n, status := Done, lastError := "")
    case Raised(e) =>
      if n >= t.maxAttempts then t.(attempts := n, status := Dead, lastError := e)
      else t.(attempts := n, nextRetry := now + Delay(n), lastError := e)
  }

  function New(kind: string, payload: string, maxAttempts: int, now: nat): Task {
    Task(kind, payload, 0, maxAttempts, now, Pending, "")
  }

  predicate IsDue(t: Task, now: nat) { t.status.Pending? && t.nextRetry <= now }

  // ── picking a batch ────────────────────────────────────────────────────────

  predicate Distinct(ids: seq<nat>) { forall i, j | 0 <= i < j < |ids| :: ids[i] != ids[j] }

  /** A batch of due tasks: in order of their time, at most BATCH, and none left out that is due earlier
      than one taken, or due at all while there is room. */
  predicate IsBatch(tasks: seq<Task>, now: nat, ids: seq<nat>) {
    && |ids| <= 10 && Distinct(ids)
    && (forall i | 0 <= i < |ids| :: ids[i] < |tasks| && tasks[ids[i]].status.Pending? && tasks[ids[i]].nextRetry <= now)
    && (forall i, j | 0 <= i < j < |ids| :: tasks[ids[i]].nextRetry <= tasks[ids[j]].nextRetry)
    && (forall k | 0 <= k < |tasks| && tasks[k].status.Pending? && tasks[k].nextRetry <= now && k !in ids ::
          |ids| == 10 && forall i | 0 <= i < |ids| :: tasks[ids[i]].nextRetry <= tasks[k].nextRetry)
  }

  /** Every task is within its allowance, and its handler was called no more often than it counts. */
  ghost predicate Accounted(tasks: seq<Task>, calls: seq<nat>) {
    && (forall i | 0 <= i < |tasks| :: tasks[i].Sound() && Calls(calls, i) <= tasks[i].attempts)
    && (forall c | c in calls :: c < |tasks|)
  }

  // ── the queue ──────────────────────────────────────────────────────────────

  class Queue {
    var tasks: seq<Task>
    var handlers: set<string>
    ghost var calls: seq<nat>         // handler calls, by task, in order

    constructor ()
      ensures Valid() && tasks == [] && calls == []
    {
      tasks, handlers, calls := [], {}, [];
    }

    ghost predicate Valid() reads this { Accounted(tasks, calls) }

    method Register(kind: string)
      modifies this`handlers
      ensures handlers == old(handlers) + {kind}
    {
      handlers := handlers + {kind};
    }

    method Enqueue(kind: string, payload: string, maxAttempts: int, now: nat) returns (id: nat)
      requires Valid()
      modifies this`tasks
      ensures Valid() && id == old(|tasks|) && tasks == old(tasks) + [New(kind, payload, maxAttempts, now)]
      ensures tasks[id] == Task(kind, payload, 0, maxAttempts, now, Pending, "")
    {
      id := |tasks|;
      NeverCalled(calls, id);
      tasks := tasks + [New(kind, payload, maxAttempts, now)];
    }

    /** The due task with the earliest time among those not yet picked. */
    method Earliest(now: nat, picked: seq<nat>) returns (best: Option<nat>)
      ensures best.None? ==> forall k | 0 <= k < |tasks| && IsDue(tasks[k], now) :: k in picked
      ensures best.Some? ==> best.value < |tasks| && IsDue(tasks[best.value], now) && best.value !in picked
                             && forall k | 0 <= k < |tasks| && IsDue(tasks[k], now) && k !in picked :: tasks[best.value].nextRetry <= tasks[k].nextRetry
    {
      best := None;
      for k := 0 to |tasks|
        invariant best.None? ==> forall i | 0 <= i < k && IsDue(tasks[i], now) :: i in picked
        invariant best.Some? ==> best.value < k && IsDue(tasks[best.value], now) && best.value !in picked
                                 && forall i | 0 <= i < k && IsDue(tasks[i], now) && i !in picked :: tasks[best.value].nextRetry <= tasks[i].nextRetry
      {
        if IsDue(tasks[k], now) && k !in picked && (best.None? || tasks[k].nextRetry < tasks[best.value].nextRetry) {
          best := Some(k);
        }
      }
    }

    method PickDue(now: nat) returns (ids: seq<nat>)
      ensures IsBatch(tasks, now, ids)
    {
      ids := [];
      while |ids| < BATCH
        invariant |ids| <= BATCH && Distinct(ids)
        invariant forall i | 0 <= i < |ids| :: ids[i] < |tasks| && IsDue(tasks[ids[i]], now)
        invariant forall i, j | 0 <= i < j < |ids| :: tasks[ids[i]].nextRetry <= tasks[ids[j]].nextRetry
        invariant forall i, k | 0 <= i < |ids| && 0 <= k < |tasks| && IsDue(tasks[k], now) && k !in ids :: tasks[ids[i]].nextRetry <= tasks[k].nextRetry
        decreases BATCH - |ids|
      {
        var next := Earliest(now, ids);
        if next.None? {
          return;
        }
        ids := ids + [next.value];
      }
    }

    /** One execution; the outcome of the handler is the outside world's. */
    method Execute(id: nat, now: nat) returns (o: Outcome)
      requires Valid() && id < |tasks| && tasks[id].status.Pending?
      modifies this`tasks, this`calls
      ensures Valid() && |tasks| == |old(tasks)|
      ensures o.NoHandler? <==> old(tasks)[id].kind !in handlers
      ensures tasks == old(tasks)[id := Executed(old(tasks)[id], o, now)]
      ensures calls == if o.NoHandler? then old(calls) else old(calls) + [id]
      ensures Work(tasks) < Work(old(tasks))
    {
      var t := tasks[id];
      o := NoHandler;
      if t.kind in handlers {
        o := *;
        if o.NoHandler? { o := Returned; }
      }
      ExecutionIsAccounted(tasks, calls, id, o, now);
      if !o.NoHandler? {
        calls := calls + [id];
      }
      tasks := tasks[id := Executed(t, o, now)];
    }

    /** A round of the worker: every task of the batch is executed once and nothing else is touched.  It is
        a history of the queue, so all that is said of histories below holds of it. */
    method ProcessDue(now: nat) returns (ids: seq<nat>, ghost evs: seq<Event>)
      requires Valid()
      modifies this`tasks, this`calls
      ensures Valid() && IsBatch(old(tasks), now, ids)
      ensures HasRun(old(tasks), evs, ids, tasks)
      ensures forall k | 0 <= k < |tasks| && k !in ids :: k < |old(tasks)| && tasks[k] == old(tasks)[k]
      ensures Work(tasks) + |ids| <= Work(old(tasks))
    {
      ids := PickDue(now);
      evs := RunBatch(ids, now);
    }

    /** An execution at some time from `now` on, added to the history so far. */
    method ExecuteNext(id: nat, now: nat, ghost start: seq<Task>, ghost evs: seq<Event>, ghost ids: seq<nat>) returns (ghost evs': seq<Event>)
      requires Valid() && id < |tasks| && IsDue(tasks[id], now)
      requires HasRun(start, evs, ids, tasks)
      modifies this`tasks, this`calls
      ensures Valid() && Work(tasks) < Work(old(tasks)) && HasRun(start, evs', ids + [id], tasks)
      ensures |tasks| == |old(tasks)| && forall k | 0 <= k < |tasks| && k != id :: tasks[k] == old(tasks)[k]
    {
      ghost var was := tasks;
      var at := *;
      at := if at >= now then at else now;
      var o := Execute(id, at);
      OneMore(start, evs, was, Ran(id, o, at));
      evs' := evs + [Ran(id, o, at)];
    }

    method RunBatch(ids: seq<nat>, now: nat) returns (ghost evs: seq<Event>)
      requires Valid() && Distinct(ids) && forall i | 0 <= i < |ids| :: ids[i] < |tasks| && IsDue(tasks[ids[i]], now)
      modifies this`tasks, this`calls
      ensures Valid() && HasRun(old(tasks), evs, ids, tasks)
      ensures |tasks| == |old(tasks)| && forall k | 0 <= k < |tasks| && k !in ids :: tasks[k] == old(tasks)[k]
      ensures Work(tasks) + |ids| <= Work(old(tasks))
    {
      ghost var start := tasks;
      evs := [];
      var i := 0;
      while i < |ids|
        invariant 0 <= i <= |ids| && Valid() && |tasks| == |start|
        invariant forall k | 0 <= k < |tasks| && k !in ids[..i] :: tasks[k] == start[k]
        invariant HasRun(start, evs, ids[..i], tasks)
        invariant Work(tasks) + i <= Work(start)
      {
        assert ids[..i + 1] == ids[..i] + [ids[i]] && ids[i] !in ids[..i];
        evs := ExecuteNext(ids[i], now, start, evs, ids[..i]);
        i := i + 1;
      }
      assert ids[..|ids|] == ids;
    }
  }

  /** `evs` leads from one to the other, and is nothing but one execution of each of `ids`, in that order. */
  ghost predicate HasRun(tasks: seq<Task>, evs: seq<Event>, ids: seq<nat>, tasks': seq<Task>) {
    Leads(tasks, evs, tasks') && Executes(evs, ids)
  }

  /** The executions of `ids`, in that order. */
  predicate Executes(evs: seq<Event>, ids: seq<nat>) {
    |evs| == |ids| && forall i | 0 <= i < |evs| :: evs[i].Ran? && evs[i].id == ids[i]
  }

  lemma {:induction false} OneMore(tasks: seq<Task>, evs: seq<Event>, next: seq<Task>, ev: Event)
    requires Leads(tasks, evs, next) && CanHappen(next, ev)
    ensures Leads(tasks, evs + [ev], Happened(next, ev))
    decreases |evs|
  {
    if evs == [] {
      assert ([] + [ev])[1..] == [];
      assert Leads(Happened(next, ev), [], Happened(next, ev));
    } else {
      OneMore(Happened(tasks, evs[0]), evs[1..], next, ev);
      assert (evs + [ev])[1..] == evs[1..] + [ev];
    }
  }

  // ── what it adds up to ─────────────────────────────────────────────────────

  function Calls(calls: seq<nat>, id: nat): nat {
    if calls == [] then 0 else Calls(calls[..|calls| - 1], id) + if calls[|calls| - 1] == id then 1 else 0
  }

  lemma {:induction false} NeverCalled(calls: seq<nat>, id: nat)
    requires id !in calls
    ensures Calls(calls, id) == 0
  {
    if calls != [] {
      NeverCalled(calls[..|calls| - 1], id);
    }
  }

  lemma CalledOnceMore(calls: seq<nat>, id: nat)
    ensures forall k: nat :: Calls(calls + [id], k) == Calls(calls, k) + if k == id then 1 else 0
  {
    assert (calls + [id])[..|calls|] == calls;
  }

  /** Attempts left in the whole queue. */
  function Work(tasks: seq<Task>): nat {
    if tasks == [] then 0 else Work(tasks[..|tasks| - 1]) + tasks[|tasks| - 1].Remaining()
  }

  lemma {:induction false} OneTaskLess(tasks: seq<Task>, id: nat, t: Task)
    requires id < |tasks|
    ensures Work(tasks[id := t]) == Work(tasks) - tasks[id].Remaining() + t.Remaining()
  {
    var last := |tasks| - 1;
    if id < last {
      OneTaskLess(tasks[..last], id, t);
      assert tasks[id := t][..last] == tasks[..last][id := t];
    } else {
      assert tasks[id := t][..last] == tasks[..last];
    }
  }

  lemma ExecutionIsAccounted(tasks: seq<Task>, calls: seq<nat>, id: nat, o: Outcome, now: nat)
    requires Accounted(tasks, calls) && id < |tasks| && tasks[id].status.Pending?
    ensures var tasks' := tasks[id := Executed(tasks[id], o, now)];
            Work(tasks') < Work(tasks) && Accounted(tasks', if o.NoHandler? then calls else calls + [id])
  {
    ExecutionMakesProgress(tasks[id], o, now);
    OneTaskLess(tasks, id, Executed(tasks[id], o, now));
    CalledOnceMore(calls, id);
  }

  /** Every execution uses up an attempt; a task that is done or dead is never executed again, since only
      pending tasks are due; and retries wait 10, 60, then 300 seconds. */
  lemma ExecutionMakesProgress(t: Task, o: Outcome, now: nat)
    requires t.Sound() && t.status.Pending?
    ensures var t' := Executed(t, o, now);
            && t'.Sound() && t'.Remaining() < t.Remaining() && t'.attempts == t.attempts + 1
            && (o.Returned? <==> t'.status.Done?)
            && (t'.status.Dead? <==> o.NoHandler? || (o.Raised? && t'.attempts == t.Allowance()))
            && (t'.status.Pending? ==> t'.nextRetry == now + (if t'.attempts == 1 then 10 else if t'.attempts == 2 then 60 else 300)
                                       && !IsDue(t', now))
            && (!t'.status.Pending? ==> t'.nextRetry == t.nextRetry)
            && t'.lastError == match o { case NoHandler => "no handler for " + t.kind case Returned => "" case Raised(e) => e }
  {
  }

  function CountOf(tasks: seq<Task>, s: Status): nat {
    if tasks == [] then 0 else CountOf(tasks[..|tasks| - 1], s) + if tasks[|tasks| - 1].status == s then 1 else 0
  }

  lemma {:induction false} StatusesCover(tasks: seq<Task>)
    ensures CountOf(tasks, Pending) + CountOf(tasks, Done) + CountOf(tasks, Dead) == |tasks|
  {
    if tasks != [] {
      StatusesCover(tasks[..|tasks| - 1]);
    }
  }

  /** The same task, as far as it was handed in: what to do, with what, and how often. */
  predicate SameTask(t: Task, u: Task) { t.kind == u.kind && t.payload == u.payload && t.maxAttempts == u.maxAttempts }

  // ── any number of executions ───────────────────────────────────────────────

  datatype Event = Added(t: Task) | Ran(id: nat, o: Outcome, now: nat)

  predicate CanHappen(tasks: seq<Task>, ev: Event) {
    match ev
    case Added(t) => t == New(t.kind, t.payload, t.maxAttempts, t.nextRetry)
    case Ran(id, _, now) => id < |tasks| && IsDue(tasks[id], now)
  }

  function Happened(tasks: seq<Task>, ev: Event): seq<Task>
    requires CanHappen(tasks, ev)
  {
    match ev
    case Added(t) => tasks + [t]
    case Ran(id, o, now) => tasks[id := Executed(tasks[id], o, now)]
  }

  ghost predicate Leads(tasks: seq<Task>, evs: seq<Event>, tasks': seq<Task>)
    decreases |evs|
  {
    if evs == [] then tasks' == tasks
    else CanHappen(tasks, evs[0]) && Leads(Happened(tasks, evs[0]), evs[1..], tasks')
  }

  /** Handler calls for task `id` in a history. */
  function CallsIn(evs: seq<Event>, id: nat): nat
    decreases |evs|
  {
    if evs == [] then 0
    else CallsIn(evs[1..], id) + if evs[0].Ran? && evs[0].id == id && !evs[0].o.NoHandler? then 1 else 0
  }

  ghost predicate AllSound(tasks: seq<Task>) { forall i | 0 <= i < |tasks| :: tasks[i].Sound() }

  /** Over any history the handler of a task is called at most max(1, max_attempts) times in all, and a
      task that is done or dead stays exactly as it is and is called no more. */
  lemma {:induction false} CallsAreBounded(tasks: seq<Task>, evs: seq<Event>, tasks': seq<Task>, id: nat)
    requires AllSound(tasks) && Leads(tasks, evs, tasks') && id < |tasks|
    ensures AllSound(tasks') && id < |tasks'| && CallsIn(evs, id) <= tasks'[id].attempts - tasks[id].attempts
    ensures tasks'[id].maxAttempts == tasks[id].maxAttempts
    ensures CallsIn(evs, id) <= tasks[id].Allowance() - tasks[id].attempts
    ensures !tasks[id].status.Pending? ==> tasks'[id] == tasks[id] && CallsIn(evs, id) == 0
    decreases |evs|
  {
    if evs != [] {
      var next := Happened(tasks, evs[0]);
      if evs[0].Ran? {
        ExecutionMakesProgress(tasks[evs[0].id], evs[0].o, evs[0].now);
      }
      CallsAreBounded(next, evs[1..], tasks', id);
    }
  }

  /** The tasks handed in during a history, in order. */
  function TasksIn(evs: seq<Event>): seq<Task>
    decreases |evs|
  {
    if evs == [] then [] else (if evs[0].Added? then [evs[0].t] else []) + TasksIn(evs[1..])
  }

  predicate SameTasks(tasks: seq<Task>, all: seq<Task>) {
    |tasks| == |all| && forall i | 0 <= i < |tasks| :: SameTask(tasks[i], all[i])
  }

  lemma SameThrough(tasks: seq<Task>, next: seq<Task>, was: seq<Task>, added: seq<Task>)
    requires SameTasks(tasks, next + added) && SameTasks(next, was)
    ensures SameTasks(tasks, was + added)
  {
    forall i | 0 <= i < |tasks| ensures SameTask(tasks[i], (was + added)[i]) {
      assert SameTask(tasks[i], (next + added)[i]);
      if i < |was| {
        assert SameTask(next[i], was[i]);
      }
    }
  }

  lemma ExecutionKeepsTasks(tasks: seq<Task>, ev: Event)
    requires CanHappen(tasks, ev) && ev.Ran?
    ensures SameTasks(Happened(tasks, ev), tasks)
  {
  }

  lemma {:induction false} TasksAreKept(tasks: seq<Task>, evs: seq<Event>, tasks': seq<Task>)
    requires Leads(tasks, evs, tasks')
    ensures SameTasks(tasks', tasks + TasksIn(evs))
    decreases |evs|
  {
    if evs != [] {
      var next, later := Happened(tasks, evs[0]), TasksIn(evs[1..]);
      TasksAreKept(next, evs[1..], tasks');
      if evs[0].Added? {
        assert next + later == tasks + ([evs[0].t] + later);
      } else {
        ExecutionKeepsTasks(tasks, evs[0]);
        SameThrough(tasks', next, tasks, later);
        assert TasksIn(evs) == [] + later == later;
      }
    }
  }

  /** Nothing is lost and nothing made up: after any history the queue holds the tasks it held and those
      handed in, each under the number it was given, with its kind, payload and limit; and pending, done
      and dead add up to just these. */
  lemma NothingIsLost(tasks: seq<Task>, evs: seq<Event>, tasks': seq<Task>)
    requires Leads(tasks, evs, tasks')
    ensures SameTasks(tasks', tasks + TasksIn(evs))
    ensures CountOf(tasks', Pending) + CountOf(tasks', Done) + CountOf(tasks', Dead) == |tasks| + |TasksIn(evs)|
  {
    TasksAreKept(tasks, evs, tasks');
    StatusesCover(tasks');
  }

  function RunsIn(evs: seq<Event>): nat
    decreases |evs|
  {
    if evs == [] then 0 else RunsIn(evs[1..]) + if evs[0].Ran? then 1 else 0
  }

  function AddedIn(evs: seq<Event>): nat
    decreases |evs|
  {
    if evs == [] then 0 else AddedIn(evs[1..]) + if evs[0].Added? then evs[0].t.Remaining() else 0
  }

  /** The work ends: a history has no more executions than the attempts there were and were added. */
  lemma {:induction false} WorkEnds(tasks: seq<Task>, evs: seq<Event>, tasks': seq<Task>)
    requires AllSound(tasks) && Leads(tasks, evs, tasks')
    ensures RunsIn(evs) + Work(tasks') <= Work(tasks) + AddedIn(evs)
    decreases |evs|
  {
    if evs != [] {
      match evs[0] {
        case Added(t) => assert (tasks + [t])[..|tasks|] == tasks;
        case Ran(id, o, now) =>
          ExecutionMakesProgress(tasks[id], o, now);
          OneTaskLess(tasks, id, Executed(tasks[id], o, now));
      }
      WorkEnds(Happened(tasks, evs[0]), evs[1..], tasks');
    }
  }
}
