/** The enforce-mode life of a comment: any number of workers race over the event store, each may
    stop anywhere, leases run out, the retry queue runs beside them, and the mode and the campaign
    may change between any two calls. */
module CommentProtocol {
  import opened Wrappers
  import opened EventStore
  import opened Admission

  type CommentId = string
  type Slot = (CommentId, Effect)

  const SOURCE := "instagram_comment"
  const LEASE_SECONDS := 60

  function Key(c: CommentId): EventKey { EventKey(SOURCE, c) }

  datatype Result = Accepted | DuplicateCompleted | RetryOwned | InProgress | Legacy | RejectedNotReady

  /** Where a call of process_comment_event stands. */
  datatype Pc =
    | Lost(now: nat, lease: nat)   // the INSERT was ignored, the reclaiming UPDATE is next
    | Refused                      // neither statement took the row
    | Claimed                      // token granted, row not read yet
    | Gate(e: Effect)              // about to decide on an effect
    | Begun(e: Effect)             // STARTED is written, the request is not out
    | Sent(e: Effect, ok: bool)    // the request went out
    | Record                       // about to look up and create the Airtable record
    | Created                      // the record is there
    | CreateFailed                 // handing over to the retry queue
    | Queued(task: nat)
    | QueueFailed
    | Returned(result: Result)
    | Raised                       // crashed, or an exception left the call

  datatype Worker = Worker(comment: CommentId, token: nat, pc: Pc, wantsReply: bool, seen: Option<Row>)

  datatype TaskStatus = Waiting | Finished | GivenUp
  datatype Task = Task(comment: CommentId, status: TaskStatus)
  datatype RunPc = Starting | Stored | Marked
  datatype TaskRun = TaskRun(task: nat, pc: RunPc)

  datatype World = World(
    rows: Rows,
    clock: nat,
    nextToken: nat,
    workers: map<nat, Worker>,
    records: set<CommentId>,       // comments with an Airtable record
    tasks: map<nat, Task>,         // retry_tasks of type comment_airtable_record
    nextTask: nat,
    runs: map<nat, TaskRun>,       // executions of those tasks
    sends: multiset<Slot>,         // every request that went out under a claim
    delivered: multiset<Slot>,     // of those, the ones that were answered well
    legacy: set<CommentId>)        // comments handled at least once without the store

  function Init(): World {
    World(map[], 0, 0, map[], {}, map[], 0, map[], multiset{}, multiset{}, {})
  }

  /** What a worker may do next; the flags are the answers of the outside world. */
  datatype Turn =
    | TakeOver(owner: string)
    | ReadRefusal
    | ReadRow
    | Skip                                     // a guard said no, or nothing is configured
    | Begin
    | Send(ok: bool)
    | Confirm
    | ConfirmRaises(applied: bool)
    | RecordSettled
    | Create(ok: bool, landed: bool)           // not ok: an exception, with or without a record
    | MarkDone
    | MarkDoneRaises(applied: bool)
    | Enqueue(ok: bool, landed: bool)
    | MarkQueued
    | MarkQueuedRaises(applied: bool)
    | MarkFailed(error: string)
    | Raise

  datatype Action =
    | Tick(seconds: nat)
    | Start(i: nat, c: CommentId, at: Circumstances, owner: string, wantsReply: bool)
    | Work(i: nat, turn: Turn)
    | RunTask(j: nat, t: nat)
    | RunCreate(j: nat)
    | RunMark(j: nat)
    | RunFinish(j: nat)
    | RunFail(j: nat, dead: bool)
    | SyncDead(t: nat, k: EventKey)
    | SuppressComment(c: CommentId, owner: string)
    | Foreign(rows: Rows)                      // anything done to events of other sources

  predicate Settled(seen: Option<Row>, e: Effect) {
    seen.Some? && (seen.value.Of(e).Done? || seen.value.Of(e).Unknown?)
  }

  predicate AirtableSettled(seen: Option<Row>) {
    seen.Some? && (seen.value.airtable.Recorded? || seen.value.airtable.RetryPending?)
  }

  function After(e: Effect): Pc {
    if e.PrivateReply? then Gate(Telegram) else Record
  }

  function Verdict(rows: Rows, k: EventKey): Result {
    if k in rows && rows[k].airtable.RetryPending? then RetryOwned
    else if k in rows && rows[k].status.Processing? then InProgress
    else DuplicateCompleted
  }

  predicate CanTurn(x: Worker, turn: Turn) {
    match turn
    case TakeOver(_) => x.pc.Lost?
    case ReadRefusal => x.pc.Refused?
    case ReadRow => x.pc.Claimed?
    case Skip => x.pc.Gate?
    case Begin => x.pc.Gate? && !Settled(x.seen, x.pc.e)
    case Send(_) => x.pc.Begun?
    case Confirm => x.pc.Sent?
    case ConfirmRaises(_) => x.pc == Sent(Telegram, true)
    case RecordSettled => x.pc.Record? && AirtableSettled(x.seen)
    case Create(_, _) => x.pc.Record? && !AirtableSettled(x.seen)
    case MarkDone => x.pc.Created?
    case MarkDoneRaises(_) => x.pc.Created?
    case Enqueue(_, _) => x.pc.CreateFailed?
    case MarkQueued => x.pc.Queued?
    case MarkQueuedRaises(_) => x.pc.Queued?
    case MarkFailed(_) => x.pc.QueueFailed?
    case Raise => !x.pc.Returned?
  }

  /** What a turn does: the worker after it, the statement it runs on its own row, the answer to the
      request it sends, and whether it leaves an Airtable record or a retry task behind. */
  datatype Change = Change(x: Worker, op: Option<Op>, sends: Option<bool>, records: bool, queues: bool)

  function Moved(x: Worker, pc: Pc): Change { Change(x.(pc := pc), None, None, false, false) }
  function Ran(x: Worker, pc: Pc, op: Op): Change { Moved(x, pc).(op := Some(op)) }
  function RanIf(applied: bool, x: Worker, pc: Pc, op: Op): Change { if applied then Ran(x, pc, op) else Moved(x, pc) }

  function Turned(rows: Rows, nextTask: nat, x: Worker, turn: Turn): Change
    requires CanTurn(x, turn)
  {
    var k, owns := Key(x.comment), Owns(rows, Key(x.comment), x.token);
    match turn
    case TakeOver(owner) =>
      Ran(x, if k in rows && rows[k].Stale(x.pc.now) then Claimed else Refused, OpReclaim(x.token, owner, x.pc.now, x.pc.lease))
    case ReadRefusal => Moved(x, Returned(Verdict(rows, k)))
    case ReadRow =>
      Moved(x.(seen := if k in rows then Some(rows[k]) else None), Gate(if x.wantsReply then PrivateReply else Telegram))
    case Skip => Moved(x, After(x.pc.e))
    case Begin => Ran(x, if owns then Begun(x.pc.e) else After(x.pc.e), OpSetEffect(x.token, x.pc.e, Started))
    case Send(ok) => Moved(x, Sent(x.pc.e, ok)).(sends := Some(ok))
    case Confirm =>
      Ran(x, After(x.pc.e), if x.pc.ok then OpSetEffect(x.token, x.pc.e, Done) else OpUnknown(x.token, x.pc.e))
    case ConfirmRaises(applied) => RanIf(applied, x, Sent(Telegram, false), OpSetEffect(x.token, Telegram, Done))
    case RecordSettled => Moved(x, Returned(Accepted))
    case Create(ok, landed) => Moved(x, if ok then Created else CreateFailed).(records := ok || landed)
    case MarkDone => Ran(x, Returned(if owns then Accepted else RejectedNotReady), OpRecorded(x.token))
    case MarkDoneRaises(applied) => RanIf(applied, x, CreateFailed, OpRecorded(x.token))
    case Enqueue(ok, landed) => Moved(x, if ok then Queued(nextTask) else QueueFailed).(queues := ok || landed)
    case MarkQueued =>
      Ran(x, Returned(if owns then Accepted else RejectedNotReady), OpRetryPending(x.token, x.pc.task))
    case MarkQueuedRaises(applied) => RanIf(applied, x, QueueFailed, OpRetryPending(x.token, x.pc.task))
    case MarkFailed(error) => Ran(x, Returned(RejectedNotReady), OpEnqueueFailed(x.token, error))
    case Raise => Moved(x, Raised)
  }

  function WorkerTurns(w: World, i: nat, ch: Change): World {
    var c := ch.x.comment;
    w.(workers := w.workers[i := ch.x],
       rows := if ch.op.Some? then Run(w.rows, Key(c), ch.op.value) else w.rows,
       sends := if ch.sends.Some? && ch.x.pc.Sent? then w.sends + multiset{(c, ch.x.pc.e)} else w.sends,
       delivered := if ch.sends == Some(true) && ch.x.pc.Sent? then w.delivered + multiset{(c, ch.x.pc.e)} else w.delivered,
       records := if ch.records then w.records + {c} else w.records,
       tasks := if ch.queues then w.tasks[w.nextTask := Task(c, Waiting)] else w.tasks,
       nextTask := if ch.queues then w.nextTask + 1 else w.nextTask)
  }

  ghost predicate Enabled(w: World, a: Action) {
    match a
    case Tick(_) => true
    case Start(i, _, _, _, _) => i !in w.workers
    case Work(i, turn) => i in w.workers && CanTurn(w.workers[i], turn)
    case RunTask(j, t) => j !in w.runs && t in w.tasks && w.tasks[t].status.Waiting?
    case RunCreate(j) => j in w.runs && w.runs[j].pc.Starting? && w.runs[j].task in w.tasks
    case RunMark(j) => j in w.runs && w.runs[j].pc.Stored? && w.runs[j].task in w.tasks
    case RunFinish(j) => j in w.runs && w.runs[j].pc.Marked? && w.runs[j].task in w.tasks
    case RunFail(j, _) => j in w.runs && w.runs[j].task in w.tasks
    case SyncDead(t, k) => t in w.tasks && w.tasks[t].status.GivenUp? && k in w.rows && w.rows[k].retryTask == Some(t)
    case SuppressComment(_, _) => true
    case Foreign(rows) => forall c :: (Key(c) in rows <==> Key(c) in w.rows) && (Key(c) in rows ==> rows[Key(c)] == w.rows[Key(c)])
  }

  /** The first statement of a call: gate, then INSERT under a token of its own. */
  function Entered(w: World, i: nat, c: CommentId, at: Circumstances, owner: string, wantsReply: bool): World {
    var row := NewRow(Processing, w.nextToken, owner, w.clock + LEASE_SECONDS, if Admit(at).Observe? then ShadowSeen else Untagged);
    var pc := match Admit(at)
              case Reject => Returned(RejectedNotReady)
              case GoLegacy => Returned(Legacy)
              case Observe => Returned(Legacy)
              case Claim => if Key(c) in w.rows then Lost(w.clock, w.clock + LEASE_SECONDS) else Claimed;
    w.(nextToken := w.nextToken + 1,
       workers := w.workers[i := Worker(c, w.nextToken, pc, wantsReply, None)],
       rows := if Admit(at).Observe? || Admit(at).Claim? then Insert(w.rows, Key(c), row) else w.rows,
       legacy := if Admit(at).Observe? || Admit(at).GoLegacy? then w.legacy + {c} else w.legacy)
  }

  ghost function Exec(w: World, a: Action): World
    requires Enabled(w, a)
  {
    match a
    case Tick(d) => w.(clock := w.clock + d)
    case Start(i, c, at, owner, wantsReply) => Entered(w, i, c, at, owner, wantsReply)
    case Work(i, turn) => WorkerTurns(w, i, Turned(w.rows, w.nextTask, w.workers[i], turn))
    case RunTask(j, t) => w.(runs := w.runs[j := TaskRun(t, Starting)])
    case RunCreate(j) =>
      w.(records := w.records + {w.tasks[w.runs[j].task].comment}, runs := w.runs[j := w.runs[j].(pc := Stored)])
    case RunMark(j) =>
      w.(rows := RetryCompleted(w.rows, Key(w.tasks[w.runs[j].task].comment)), runs := w.runs[j := w.runs[j].(pc := Marked)])
    case RunFinish(j) =>
      var t := w.runs[j].task;
      w.(tasks := w.tasks[t := w.tasks[t].(status := Finished)], runs := w.runs - {j})
    case RunFail(j, dead) =>
      var t := w.runs[j].task;
      w.(tasks := if dead then w.tasks[t := w.tasks[t].(status := GivenUp)] else w.tasks, runs := w.runs - {j})
    case SyncDead(_, k) => w.(rows := MarkDead(w.rows, k))
    case SuppressComment(c, owner) =>
      w.(rows := Suppress(w.rows, Key(c), w.nextToken, owner, w.clock), nextToken := w.nextToken + 1)
    case Foreign(rows) => w.(rows := rows)
  }

  /** `acts` is a run from `w` to `w'`: any finite sequence of steps. */
  ghost predicate Leads(w: World, acts: seq<Action>, w': World)
    decreases |acts|
  {
    if acts == [] then w' == w
    else Enabled(w, acts[0]) && Leads(Exec(w, acts[0]), acts[1..], w')
  }

  ghost predicate Reachable(w: World) {
    exists acts :: Leads(Init(), acts, w)
  }

  // ── the invariant ──────────────────────────────────────────────────────────

  ghost predicate TokensApart(w: World) {
    && (forall c :: Key(c) in w.rows ==> w.rows[Key(c)].token < w.nextToken)
    && (forall i :: i in w.workers ==> w.workers[i].token < w.nextToken)
    && (forall i, j :: i in w.workers && j in w.workers && i != j ==> w.workers[i].token != w.workers[j].token)
  }

  /** Worker `i` may still come to the gate of `e` and has read the row. */
  predicate Ahead(pc: Pc, e: Effect) {
    (pc.Gate? && pc.e == e) || (e.Telegram? && (pc.Gate? || pc.Begun? || pc.Sent?) && pc.e.PrivateReply?)
  }

  predicate Idle(s: EffectStatus) { s.NotApplicable? || s.Done? || s.Unknown? }

  ghost predicate WorkerOk(rows: Rows, x: Worker) {
    var k, owns, live := Key(x.comment), Owns(rows, Key(x.comment), x.token), !x.pc.Returned? && !x.pc.Raised?;
    && (live ==> k in rows)
    && (owns && live ==> rows[k].tag.Untagged?)
    && (owns ==> !x.pc.Lost? && !x.pc.Refused?)
    && (owns && x.pc.Claimed? ==> forall e: Effect :: Idle(rows[k].Of(e)))
    && (forall e :: owns && Ahead(x.pc, e) ==>
          Idle(rows[k].Of(e)) && x.seen.Some? && x.seen.value.Of(e) == rows[k].Of(e))
  }

  ghost predicate AtBegun(w: World, i: nat, s: Slot) {
    i in w.workers && w.workers[i].comment == s.0 && w.workers[i].pc == Begun(s.1)
  }

  ghost predicate SlotOk(w: World, s: Slot) {
    && w.sends[s] <= 1
    && (Key(s.0) !in w.rows || w.rows[Key(s.0)].Of(s.1).NotApplicable? ==> w.sends[s] == 0 && forall i :: !AtBegun(w, i, s))
    && (w.sends[s] == 1 ==> forall i :: !AtBegun(w, i, s))
    && (forall i, j :: AtBegun(w, i, s) && AtBegun(w, j, s) ==> i == j)
    && (Key(s.0) in w.rows ==> !w.rows[Key(s.0)].Of(s.1).Sending?)
    && (Key(s.0) in w.rows && !w.rows[Key(s.0)].tag.Untagged? ==> w.rows[Key(s.0)].Of(s.1).NotApplicable?)
  }

  ghost predicate SendInv(w: World) {
    TokensApart(w) && (forall i :: i in w.workers ==> WorkerOk(w.rows, w.workers[i])) && (forall s :: SlotOk(w, s))
  }

  lemma SendInvInit()
    ensures SendInv(Init())
  {
  }

  // ── one step ───────────────────────────────────────────────────────────────

  /** What a step taken under token `t` may do to a row. */
  predicate RowEvolves(r: Row, r': Row, t: nat) {
    && r'.tag == r.tag
    && (forall e: Effect :: r'.Of(e).NotApplicable? ==> r.Of(e).NotApplicable?)
    && (forall e: Effect :: r'.Of(e).Sending? ==> r.Of(e).Sending?)
    && ((r'.token == r.token && (r.token != t ==> forall e: Effect :: r'.Of(e) == r.Of(e)))
        || (r'.token == t && forall e: Effect :: r'.Of(e) == Abandon(r.Of(e))))
  }

  predicate EvolvesAt(k: EventKey, rows: Rows, rows': Rows, t: nat) {
    && (k in rows ==> k in rows' && RowEvolves(rows[k], rows'[k], t))
    && (k !in rows && k in rows' ==> rows'[k].token == t && forall e: Effect :: rows'[k].Of(e).NotApplicable?)
  }

  /** The token a step acts under: the worker's own, or one not issued yet. */
  function Mover(w: World, a: Action): nat {
    if a.Work? && a.i in w.workers then w.workers[a.i].token else w.nextToken
  }

  lemma TurnRuns(rows: Rows, nextTask: nat, x: Worker, turn: Turn)
    requires CanTurn(x, turn)
    ensures var ch := Turned(rows, nextTask, x, turn);
            && ch.x.comment == x.comment && ch.x.token == x.token
            && (ch.op.Some? ==>
                  && (ch.op.value.OpReclaim? || ch.op.value.OpUnknown? || ch.op.value.OpRecorded? || ch.op.value.OpRetryPending?
                      || ch.op.value.OpEnqueueFailed? || (ch.op.value.OpSetEffect? && (ch.op.value.s.Started? || ch.op.value.s.Done?)))
                  && ch.op.value.token == x.token)
  {
  }

  lemma StepEvolves(w: World, a: Action, c: CommentId)
    requires Enabled(w, a)
    ensures EvolvesAt(Key(c), w.rows, Exec(w, a).rows, Mover(w, a))
  {
    if a.Work? {
      TurnRuns(w.rows, w.nextTask, w.workers[a.i], a.turn);
    }
  }

  lemma TokensStep(w: World, a: Action)
    requires TokensApart(w) && Enabled(w, a)
    ensures TokensApart(Exec(w, a))
  {
    forall c | Key(c) in Exec(w, a).rows ensures Exec(w, a).rows[Key(c)].token < Exec(w, a).nextToken {
      StepEvolves(w, a, c);
    }
    if a.Work? {
      TurnRuns(w.rows, w.nextTask, w.workers[a.i], a.turn);
    }
  }

  lemma BystanderKept(x: Worker, rows: Rows, rows': Rows, t: nat)
    requires WorkerOk(rows, x) && x.token != t && EvolvesAt(Key(x.comment), rows, rows', t)
    ensures WorkerOk(rows', x)
  {
  }

  predicate TouchesEffects(turn: Turn) {
    turn.TakeOver? || turn.ReadRow? || turn.Begin? || turn.Confirm? || turn.ConfirmRaises?
  }

  lemma ActorKept(rows: Rows, nextTask: nat, x: Worker, turn: Turn)
    requires CanTurn(x, turn) && WorkerOk(rows, x)
    requires Key(x.comment) in rows ==> forall e: Effect :: !rows[Key(x.comment)].Of(e).Sending?
    ensures var ch := Turned(rows, nextTask, x, turn);
            WorkerOk(if ch.op.Some? then Run(rows, Key(x.comment), ch.op.value) else rows, ch.x)
  {
    if TouchesEffects(turn) { ActorKeptOnEffects(rows, nextTask, x, turn); } else { ActorKeptElsewhere(rows, nextTask, x, turn); }
  }

  lemma ActorKeptOnEffects(rows: Rows, nextTask: nat, x: Worker, turn: Turn)
    requires CanTurn(x, turn) && WorkerOk(rows, x) && TouchesEffects(turn)
    requires Key(x.comment) in rows ==> forall e: Effect :: !rows[Key(x.comment)].Of(e).Sending?
    ensures var ch := Turned(rows, nextTask, x, turn);
            WorkerOk(if ch.op.Some? then Run(rows, Key(x.comment), ch.op.value) else rows, ch.x)
  {
    match turn
    case TakeOver(owner) =>
      if Key(x.comment) in rows {
        var r := rows[Key(x.comment)];
        assert forall e: Effect :: TakenOver(r, x.token, owner, x.pc.lease).Of(e) == Abandon(r.Of(e));
      }
    case ReadRow =>
    case Begin => assert Ahead(x.pc, Telegram);
    case Confirm => assert Ahead(x.pc, Telegram) || x.pc.e.Telegram?;
    case ConfirmRaises(_) =>
  }

  lemma ActorKeptElsewhere(rows: Rows, nextTask: nat, x: Worker, turn: Turn)
    requires CanTurn(x, turn) && WorkerOk(rows, x) && !TouchesEffects(turn)
    ensures var ch := Turned(rows, nextTask, x, turn);
            WorkerOk(if ch.op.Some? then Run(rows, Key(x.comment), ch.op.value) else rows, ch.x)
  {
  }

  lemma ActorStep(w: World, i: nat, turn: Turn)
    requires SendInv(w) && Enabled(w, Work(i, turn))
    ensures WorkerOk(Exec(w, Work(i, turn)).rows, Exec(w, Work(i, turn)).workers[i])
  {
    var c := w.workers[i].comment;
    assert SlotOk(w, (c, PrivateReply)) && SlotOk(w, (c, Telegram));
    TurnRuns(w.rows, w.nextTask, w.workers[i], turn);
    ActorKept(w.rows, w.nextTask, w.workers[i], turn);
  }

  lemma WorkersStep(w: World, a: Action)
    requires SendInv(w) && Enabled(w, a)
    ensures forall j :: j in Exec(w, a).workers ==> WorkerOk(Exec(w, a).rows, Exec(w, a).workers[j])
  {
    forall j | j in Exec(w, a).workers ensures WorkerOk(Exec(w, a).rows, Exec(w, a).workers[j]) {
      if a.Work? && a.i == j {
        ActorStep(w, j, a.turn);
      } else if j in w.workers {
        StepEvolves(w, a, w.workers[j].comment);
        BystanderKept(w.workers[j], w.rows, Exec(w, a).rows, Mover(w, a));
      }
    }
  }

  /** Nothing new is sent or begun by this step. */
  ghost predicate Quiet(w: World, w': World, s: Slot) {
    w'.sends[s] == w.sends[s] && forall i :: AtBegun(w', i, s) ==> AtBegun(w, i, s)
  }

  lemma TurnIsQuiet(w: World, i: nat, turn: Turn, s: Slot)
    requires Enabled(w, Work(i, turn)) && !turn.Send? && !turn.Begin?
    ensures Quiet(w, Exec(w, Work(i, turn)), s)
  {
    var ch := Turned(w.rows, w.nextTask, w.workers[i], turn);
    assert ch.sends.None? && !ch.x.pc.Begun?;
  }

  lemma SlotStep(w: World, a: Action, s: Slot)
    requires SendInv(w) && Enabled(w, a)
    ensures SlotOk(Exec(w, a), s)
  {
    if a.Work? && a.turn.Begin? {
      BeginSlot(w, a.i, s);
    } else if a.Work? && a.turn.Send? {
      SendSlot(w, a.i, a.turn.ok, s);
    } else {
      if a.Work? {
        TurnIsQuiet(w, a.i, a.turn, s);
      }
      StepEvolves(w, a, s.0);
      TaggedStaysIdle(w, a, s);
      QuietSlot(w, Exec(w, a), s, Mover(w, a));
    }
  }

  ghost predicate TaggedIdle(w: World, s: Slot) {
    Key(s.0) in w.rows && !w.rows[Key(s.0)].tag.Untagged? ==> w.rows[Key(s.0)].Of(s.1).NotApplicable?
  }

  /** A tagged row has no owner at work, so nothing begins an effect on it. */
  lemma TaggedStaysIdle(w: World, a: Action, s: Slot)
    requires SendInv(w) && Enabled(w, a)
    ensures TaggedIdle(Exec(w, a), s)
  {
    assert SlotOk(w, s);
    if a.Work? {
      assert WorkerOk(w.rows, w.workers[a.i]);
      TurnRuns(w.rows, w.nextTask, w.workers[a.i], a.turn);
    }
  }

  lemma QuietSlot(w: World, w': World, s: Slot, t: nat)
    requires SlotOk(w, s) && Quiet(w, w', s) && EvolvesAt(Key(s.0), w.rows, w'.rows, t) && TaggedIdle(w', s)
    ensures SlotOk(w', s)
  {
  }

  lemma BeginSlot(w: World, i: nat, s: Slot)
    requires SendInv(w) && Enabled(w, Work(i, Begin))
    ensures SlotOk(Exec(w, Work(i, Begin)), s)
  {
    var x, k, w' := w.workers[i], Key(w.workers[i].comment), Exec(w, Work(i, Begin));
    assert SlotOk(w, s) && SlotOk(w, (x.comment, x.pc.e));
    if Owns(w.rows, k, x.token) {
      assert WorkerOk(w.rows, x) && Ahead(x.pc, x.pc.e);
      assert w.rows[k].Of(x.pc.e).NotApplicable?;
    }
    forall j | AtBegun(w', j, s)
      ensures AtBegun(w, j, s) || (j == i && s == (x.comment, x.pc.e) && Owns(w.rows, k, x.token))
    {
      if j == i {
        assert s == (s.0, s.1);
      }
    }
  }

  lemma SendSlot(w: World, i: nat, ok: bool, s: Slot)
    requires SendInv(w) && Enabled(w, Work(i, Send(ok)))
    ensures SlotOk(Exec(w, Work(i, Send(ok))), s)
  {
    var x, w' := w.workers[i], Exec(w, Work(i, Send(ok)));
    var sent := (x.comment, x.pc.e);
    assert SlotOk(w, s) && AtBegun(w, i, sent);
    assert w'.sends == w.sends + multiset{sent};
    forall j | AtBegun(w', j, s) ensures AtBegun(w, j, s) && j != i {
    }
    if s != sent {
      assert w'.sends[s] == w.sends[s];
    }
  }

  lemma SendInvStep(w: World, a: Action)
    requires SendInv(w) && Enabled(w, a)
    ensures SendInv(Exec(w, a))
  {
    TokensStep(w, a);
    WorkersStep(w, a);
    forall s ensures SlotOk(Exec(w, a), s) {
      SlotStep(w, a, s);
    }
  }

  // ── over whole runs ────────────────────────────────────────────────────────

  lemma {:induction false} SendInvRun(w: World, acts: seq<Action>, w': World)
    requires SendInv(w) && Leads(w, acts, w')
    ensures SendInv(w')
    decreases |acts|
  {
    if acts != [] {
      SendInvStep(w, acts[0]);
      SendInvRun(Exec(w, acts[0]), acts[1..], w');
    }
  }

  /** Whatever crashes, expires, is redelivered or taken over, and however the mode changes on the
      way, a comment's Telegram alert and its Private Reply each go out at most once under a claim;
      and never once the comment was first seen in shadow mode or suppressed at the cutover. */
  lemma AtMostOnce(w: World, s: Slot)
    requires Reachable(w)
    ensures w.sends[s] <= 1
    ensures Key(s.0) in w.rows && !w.rows[Key(s.0)].tag.Untagged? ==> w.sends[s] == 0
    ensures w.sends[s] == 1 ==> Key(s.0) in w.rows && !w.rows[Key(s.0)].Of(s.1).NotApplicable?
  {
    var acts :| Leads(Init(), acts, w);
    SendInvInit();
    SendInvRun(Init(), acts, w);
    assert SlotOk(w, s);
  }

  // ── what DONE and UNKNOWN mean ─────────────────────────────────────────────

  ghost predicate AtSent(w: World, i: nat, s: Slot) {
    i in w.workers && w.workers[i].comment == s.0 && w.workers[i].pc.Sent? && w.workers[i].pc.e == s.1
  }

  ghost predicate SentOk(w: World, s: Slot) {
    && w.delivered[s] <= w.sends[s]
    && (forall i :: AtSent(w, i, s) ==> w.sends[s] >= 1 && (w.workers[i].pc.ok ==> w.delivered[s] >= 1))
    && (Key(s.0) in w.rows && w.rows[Key(s.0)].Of(s.1).Done? ==> w.delivered[s] >= 1)
  }

  lemma SentStep(w: World, a: Action, s: Slot)
    requires Enabled(w, a) && SentOk(w, s)
    ensures SentOk(Exec(w, a), s)
  {
    if a.Work? {
      var ch := Turned(w.rows, w.nextTask, w.workers[a.i], a.turn);
      DoneIsEarned(w.rows, w.nextTask, w.workers[a.i], a.turn);
      SentTurn(w, a.i, ch, s);
    } else {
      assert forall i :: AtSent(Exec(w, a), i, s) ==> AtSent(w, i, s);
    }
  }

  /** Only a worker whose request was answered well marks an effect DONE, and it knows of no answer but
      the one it got. */
  predicate Earned(x: Worker, ch: Change) {
    && ch.x.comment == x.comment
    && (ch.op.Some? ==>
          match ch.op.value
          case OpSetEffect(_, e, s) => !s.Done? || x.pc == Sent(e, true)
          case OpInsert(_) => false
          case _ => true)
    && (ch.x.pc.Sent? ==>
          || (x.pc.Begun? && x.pc.e == ch.x.pc.e && ch.sends == Some(ch.x.pc.ok))
          || (x.pc.Sent? && x.pc.e == ch.x.pc.e && (ch.x.pc.ok ==> x.pc.ok) && ch.sends.None?))
  }

  lemma DoneIsEarned(rows: Rows, nextTask: nat, x: Worker, turn: Turn)
    requires CanTurn(x, turn)
    ensures Earned(x, Turned(rows, nextTask, x, turn))
  {
  }

  lemma SentTurn(w: World, i: nat, ch: Change, s: Slot)
    requires i in w.workers && Earned(w.workers[i], ch) && SentOk(w, s)
    ensures SentOk(WorkerTurns(w, i, ch), s)
  {
    var w' := WorkerTurns(w, i, ch);
    assert w'.sends[s] >= w.sends[s] && w'.delivered[s] >= w.delivered[s];
    forall j | AtSent(w', j, s) ensures w'.sends[s] >= 1 && (w'.workers[j].pc.ok ==> w'.delivered[s] >= 1) {
      assert AtSent(w, j, s) || j == i;
    }
  }

  lemma {:induction false} SentRun(w: World, acts: seq<Action>, w': World, s: Slot)
    requires SentOk(w, s) && Leads(w, acts, w')
    ensures SentOk(w', s)
    decreases |acts|
  {
    if acts != [] {
      SentStep(w, acts[0], s);
      SentRun(Exec(w, acts[0]), acts[1..], w', s);
    }
  }

  /** An effect that is DONE in the table went out exactly once, and was answered well. */
  lemma DoneMeansDelivered(w: World, s: Slot)
    requires Reachable(w) && Key(s.0) in w.rows && w.rows[Key(s.0)].Of(s.1).Done?
    ensures w.sends[s] == 1 && w.delivered[s] == 1
  {
    AtMostOnce(w, s);
    var acts :| Leads(Init(), acts, w);
    SentRun(Init(), acts, w, s);
  }

  /** And the other way: a worker that still owns the event records the answer it got, as DONE if it was
      good, and otherwise as UNKNOWN, for a person to look at; nothing else of the row changes. */
  lemma AnswerIsRecorded(w: World, i: nat)
    requires i in w.workers && w.workers[i].pc.Sent? && Owns(w.rows, Key(w.workers[i].comment), w.workers[i].token)
    ensures var x, w' := w.workers[i], Exec(w, Work(i, Confirm));
            var r, r' := w.rows[Key(x.comment)], w'.rows[Key(x.comment)];
            && r'.Of(x.pc.e) == (if x.pc.ok then Done else Unknown)
            && r'.manualReview == (r.manualReview || !x.pc.ok)
            && r' == r.With(x.pc.e, r'.Of(x.pc.e)).(manualReview := r'.manualReview)
            && w'.workers[i] == x.(pc := if x.pc.e.PrivateReply? then Gate(Telegram) else Record)
  {
  }

  predicate Flagged(w: World, c: CommentId) {
    Key(c) in w.rows && (w.rows[Key(c)].privateReply.Unknown? || w.rows[Key(c)].telegram.Unknown?) ==> w.rows[Key(c)].manualReview
  }

  lemma FlagStep(w: World, a: Action, c: CommentId)
    requires Enabled(w, a) && Flagged(w, c)
    ensures Flagged(Exec(w, a), c)
  {
    if a.Work? {
      TurnRuns(w.rows, w.nextTask, w.workers[a.i], a.turn);
    }
  }

  lemma {:induction false} FlagRun(w: World, acts: seq<Action>, w': World, c: CommentId)
    requires Flagged(w, c) && Leads(w, acts, w')
    ensures Flagged(w', c)
    decreases |acts|
  {
    if acts != [] {
      FlagStep(w, acts[0], c);
      FlagRun(Exec(w, acts[0]), acts[1..], w', c);
    }
  }

  /** Nothing of unknown outcome escapes a person's attention, be it unanswered, refused or abandoned. */
  lemma UnknownIsFlagged(w: World, c: CommentId, e: Effect)
    requires Reachable(w) && Key(c) in w.rows && w.rows[Key(c)].Of(e).Unknown?
    ensures w.rows[Key(c)].manualReview
  {
    var acts :| Leads(Init(), acts, w);
    FlagRun(Init(), acts, w, c);
  }

  // ── undisturbed calls ──────────────────────────────────────────────────────

  lemma {:induction false} OneMore(w0: World, acts: seq<Action>, w: World, a: Action)
    requires Leads(w0, acts, w) && Enabled(w, a)
    ensures Leads(w0, acts + [a], Exec(w, a))
    decreases |acts|
  {
    if acts == [] {
      assert ([] + [a])[1..] == [];
      assert Leads(Exec(w, a), [], Exec(w, a));
    } else {
      OneMore(Exec(w0, acts[0]), acts[1..], w, a);
      assert (acts + [a])[1..] == acts[1..] + [a];
    }
  }

  predicate AllBy(acts: seq<Action>, i: nat) { forall n | 0 <= n < |acts| :: (acts[n].Start? || acts[n].Work?) && acts[n].i == i }

  /** Call `i` gets from `w` to `w'` on its own. */
  ghost predicate GetsTo(w: World, w': World, i: nat) {
    exists acts :: Leads(w, acts, w') && AllBy(acts, i)
  }

  ghost predicate Step(w: World, i: nat, turn: Turn, w': World) {
    i in w.workers && CanTurn(w.workers[i], turn) && w' == WorkerTurns(w, i, Turned(w.rows, w.nextTask, w.workers[i], turn))
  }

  /** The worlds a call passes through, turn by turn. */
  ghost predicate Trace(ws: seq<World>, i: nat, turns: seq<Turn>) {
    |ws| == |turns| + 1 && forall n | 0 <= n < |turns| :: Step(ws[n], i, turns[n], ws[n + 1])
  }

  lemma Extends(ws: seq<World>, i: nat, turns: seq<Turn>, turn: Turn, w': World)
    requires Trace(ws, i, turns) && Step(ws[|ws| - 1], i, turn, w')
    ensures Trace(ws + [w'], i, turns + [turn])
  {
  }

  /** A call that comes in and takes these turns gets there on its own. */
  lemma {:induction false} TraceGetsTo(w: World, ws: seq<World>, i: nat, turns: seq<Turn>, a: Action)
    requires a.Start? && a.i == i && Enabled(w, a) && Trace(ws, i, turns) && ws[0] == Exec(w, a)
    ensures GetsTo(w, ws[|ws| - 1], i)
    decreases |turns|
  {
    var last, n := ws[|ws| - 1], |turns| - 1;
    if turns == [] {
      assert [a][1..] == [];
      assert Leads(last, [], last);
      assert Leads(w, [a], last) && AllBy([a], i);
    } else {
      TraceGetsTo(w, ws[..n + 1], i, turns[..n], a);
      var acts :| Leads(w, acts, ws[n]) && AllBy(acts, i);
      assert Step(ws[n], i, turns[n], last);
      OneMore(w, acts, ws[n], Work(i, turns[n]));
      assert AllBy(acts + [Work(i, turns[n])], i);
    }
  }

  /** The call comes in, in enforce mode. */
  lemma ComesIn(w: World, i: nat, c: CommentId, at: Circumstances, owner: string, wantsReply: bool) returns (w': World)
    requires Admit(at).Claim? && i !in w.workers
    ensures Enabled(w, Start(i, c, at, owner, wantsReply)) && w' == Exec(w, Start(i, c, at, owner, wantsReply)) && Trace([w'], i, [])
    ensures w' == w.(nextToken := w.nextToken + 1, workers := w'.workers, rows := w'.rows)
    ensures var pc := if Key(c) in w.rows then Lost(w.clock, w.clock + LEASE_SECONDS) else Claimed;
            w'.workers == w.workers[i := Worker(c, w.nextToken, pc, wantsReply, None)]
    ensures Key(c) in w.rows ==> w'.rows == w.rows
    ensures Key(c) !in w.rows ==> w'.rows == w.rows[Key(c) := NewRow(Processing, w.nextToken, owner, w.clock + LEASE_SECONDS, Untagged)]
  {
    w' := Exec(w, Start(i, c, at, owner, wantsReply));
  }

  function Settling(r: Row, e: Effect, ok: bool): Row {
    if ok then r.With(e, Done) else r.With(e, Unknown).(manualReview := true)
  }

  lemma Begins(w: World, i: nat) returns (w': World)
    requires i in w.workers && w.workers[i].pc.Gate? && !Settled(w.workers[i].seen, w.workers[i].pc.e)
    requires Owns(w.rows, Key(w.workers[i].comment), w.workers[i].token)
    ensures Step(w, i, Begin, w')
    ensures var x, k := w.workers[i], Key(w.workers[i].comment);
            w' == w.(rows := w.rows[k := w.rows[k].With(x.pc.e, Started)], workers := w.workers[i := x.(pc := Begun(x.pc.e))])
  {
    w' := WorkerTurns(w, i, Turned(w.rows, w.nextTask, w.workers[i], Begin));
  }

  lemma Sends(w: World, i: nat, ok: bool) returns (w': World)
    requires i in w.workers && w.workers[i].pc.Begun?
    ensures Step(w, i, Send(ok), w')
    ensures var x, s := w.workers[i], (w.workers[i].comment, w.workers[i].pc.e);
            w' == w.(workers := w.workers[i := x.(pc := Sent(x.pc.e, ok))], sends := w.sends + multiset{s},
                     delivered := if ok then w.delivered + multiset{s} else w.delivered)
  {
    w' := WorkerTurns(w, i, Turned(w.rows, w.nextTask, w.workers[i], Send(ok)));
  }

  lemma Confirms(w: World, i: nat) returns (w': World)
    requires i in w.workers && w.workers[i].pc.Sent? && Owns(w.rows, Key(w.workers[i].comment), w.workers[i].token)
    ensures Step(w, i, Confirm, w')
    ensures var x, k := w.workers[i], Key(w.workers[i].comment);
            w' == w.(rows := w.rows[k := Settling(w.rows[k], x.pc.e, x.pc.ok)],
                     workers := w.workers[i := x.(pc := if x.pc.e.PrivateReply? then Gate(Telegram) else Record)])
  {
    w' := WorkerTurns(w, i, Turned(w.rows, w.nextTask, w.workers[i], Confirm));
  }

  /** At the gate of an effect it has not seen settled, the owner begins, sends and records the answer. */
  lemma EffectGoesOut(ws: seq<World>, i: nat, turns: seq<Turn>, ok: bool) returns (ws': seq<World>, turns': seq<Turn>)
    requires Trace(ws, i, turns) && var w := ws[|ws| - 1];
             && i in w.workers && w.workers[i].pc.Gate? && !Settled(w.workers[i].seen, w.workers[i].pc.e)
             && Owns(w.rows, Key(w.workers[i].comment), w.workers[i].token)
    ensures Trace(ws', i, turns') && ws'[0] == ws[0]
    ensures var w := ws[|ws| - 1];
            var x, k, s := w.workers[i], Key(w.workers[i].comment), (w.workers[i].comment, w.workers[i].pc.e);
            ws'[|ws'| - 1] == w.(rows := w.rows[k := Settling(w.rows[k], x.pc.e, ok)],
                     workers := w.workers[i := x.(pc := if x.pc.e.PrivateReply? then Gate(Telegram) else Record)],
                     sends := w.sends + multiset{s}, delivered := if ok then w.delivered + multiset{s} else w.delivered)
  {
    var w := ws[|ws| - 1];
    var k, e := Key(w.workers[i].comment), w.workers[i].pc.e;
    var w1 := Begins(w, i);
    var w2 := Sends(w1, i, ok);
    var w3 := Confirms(w2, i);
    Extends(ws, i, turns, Begin, w1);
    Extends(ws + [w1], i, turns + [Begin], Send(ok), w2);
    Extends(ws + [w1] + [w2], i, turns + [Begin] + [Send(ok)], Confirm, w3);
    ws', turns' := ws + [w1] + [w2] + [w3], turns + [Begin] + [Send(ok)] + [Confirm];
    assert Settling(w1.rows[k], e, ok) == Settling(w.rows[k], e, ok);
    assert w3.rows == w.rows[k := Settling(w.rows[k], e, ok)];
    assert w3.workers == w.workers[i := w3.workers[i]];
  }

  lemma Reads(ws: seq<World>, i: nat, turns: seq<Turn>) returns (ws': seq<World>, turns': seq<Turn>)
    requires Trace(ws, i, turns) && var w := ws[|ws| - 1]; i in w.workers && w.workers[i].pc.Claimed? && Key(w.workers[i].comment) in w.rows
    ensures Trace(ws', i, turns') && ws'[0] == ws[0]
    ensures var w := ws[|ws| - 1]; var x := w.workers[i];
            ws'[|ws'| - 1] == w.(workers := w.workers[i := Worker(x.comment, x.token, Gate(if x.wantsReply then PrivateReply else Telegram),
                                                                  x.wantsReply, Some(w.rows[Key(x.comment)]))])
  {
    var w := ws[|ws| - 1];
    var w' := WorkerTurns(w, i, Turned(w.rows, w.nextTask, w.workers[i], ReadRow));
    Extends(ws, i, turns, ReadRow, w');
    ws', turns' := ws + [w'], turns + [ReadRow];
  }

  lemma Continues(ws: seq<World>, i: nat, turns: seq<Turn>, more: seq<World>, rest: seq<Turn>)
    requires Trace(ws, i, turns) && Trace(more, i, rest) && more[0] == ws[|ws| - 1]
    ensures Trace(ws + more[1..], i, turns + rest) && (ws + more[1..])[0] == ws[0]
    ensures (ws + more[1..])[|ws + more[1..]| - 1] == more[|more| - 1]
  {
    var all, done := ws + more[1..], turns + rest;
    forall n | 0 <= n < |done| ensures Step(all[n], i, done[n], all[n + 1]) {
      if n >= |turns| {
        var m := n - |turns|;
        assert Step(more[m], i, rest[m], more[m + 1]);
        assert all[n] == more[m] && all[n + 1] == more[m + 1];
      }
    }
  }

  /** Past the gate of an effect, with the answer `ok` if its request goes out. */
  function Through(r: Row, e: Effect, ok: bool): Row {
    if r.Of(e).Done? || r.Of(e).Unknown? then r else Settling(r, e, ok)
  }

  function Going(c: CommentId, r: Row, e: Effect): multiset<Slot> {
    if r.Of(e).Done? || r.Of(e).Unknown? then multiset{} else multiset{(c, e)}
  }

  /** At the gate of an effect with the row fresh in mind: it goes out, or is skipped if it is settled. */
  lemma EffectIsDealtWith(ws: seq<World>, i: nat, turns: seq<Turn>, ok: bool) returns (ws': seq<World>, turns': seq<Turn>)
    requires Trace(ws, i, turns) && AtGate(ws[|ws| - 1], i)
    ensures Trace(ws', i, turns') && ws'[0] == ws[0]
    ensures var w, w' := ws[|ws| - 1], ws'[|ws'| - 1]; var x, k := w.workers[i], Key(w.workers[i].comment);
            && w' == w.(rows := w.rows[k := Through(w.rows[k], x.pc.e, ok)],
                        workers := w.workers[i := x.(pc := if x.pc.e.PrivateReply? then Gate(Telegram) else Record)],
                        sends := w.sends + Going(x.comment, w.rows[k], x.pc.e), delivered := w'.delivered)
  {
    var w := ws[|ws| - 1];
    var x, k := w.workers[i], Key(w.workers[i].comment);
    if Settled(x.seen, x.pc.e) {
      var w' := WorkerTurns(w, i, Turned(w.rows, w.nextTask, x, Skip));
      Extends(ws, i, turns, Skip, w');
      ws', turns' := ws + [w'], turns + [Skip];
      assert w.rows == w.rows[k := w.rows[k]];
    } else {
      ws', turns' := EffectGoesOut(ws, i, turns, ok);
    }
  }

  /** Worker `i` owns its comment, is at a gate, and what it read of that effect still holds. */
  ghost predicate AtGate(w: World, i: nat) {
    && i in w.workers && w.workers[i].pc.Gate?
    && var x, k := w.workers[i], Key(w.workers[i].comment);
       Owns(w.rows, k, x.token) && x.seen.Some? && x.seen.value.Of(x.pc.e) == w.rows[k].Of(x.pc.e)
  }

  /** The row of a comment once its effects are dealt with; `reply` is None if no Private Reply is wanted,
      and otherwise, like `telegram`, the answer to the request if one goes out. */
  function AfterEffects(r: Row, reply: Option<bool>, telegram: bool): Row {
    Through(if reply.Some? then Through(r, PrivateReply, reply.value) else r, Telegram, telegram)
  }

  function Outgoing(c: CommentId, r: Row, reply: Option<bool>): multiset<Slot> {
    (if reply.Some? then Going(c, r, PrivateReply) else multiset{}) + Going(c, r, Telegram)
  }

  lemma BothAreDealtWith(ws: seq<World>, i: nat, turns: seq<Turn>, c: CommentId, reply: Option<bool>, telegram: bool)
    returns (ws': seq<World>, turns': seq<Turn>)
    requires Trace(ws, i, turns) && HasRead(ws[|ws| - 1], i, c, reply.Some?)
    ensures Trace(ws', i, turns') && ws'[0] == ws[0]
    ensures var w, w' := ws[|ws| - 1], ws'[|ws'| - 1]; var r := w.rows[Key(c)];
            && w' == w.(workers := w.workers[i := w.workers[i].(pc := Record)], rows := w.rows[Key(c) := AfterEffects(r, reply, telegram)],
                        sends := w.sends + Outgoing(c, r, reply), delivered := w'.delivered)
  {
    var w := ws[|ws| - 1];
    var r := w.rows[Key(c)];
    ws', turns' := ws, turns;
    if reply.Some? {
      ws', turns' := EffectIsDealtWith(ws, i, turns, reply.value);
    }
    var r1 := if reply.Some? then Through(r, PrivateReply, reply.value) else r;
    var w1 := ws'[|ws'| - 1];
    assert w1.rows == w.rows[Key(c) := r1] && w1.workers == w.workers[i := w.workers[i].(pc := Gate(Telegram))];
    assert r1.Of(Telegram) == r.Of(Telegram);
    ws', turns' := EffectIsDealtWith(ws', i, turns', telegram);
    assert ws'[|ws'| - 1].rows == w.rows[Key(c) := AfterEffects(r, reply, telegram)];
    assert ws'[|ws'| - 1].workers == w.workers[i := w.workers[i].(pc := Record)];
  }

  /** Worker `i` owns the comment, and has just read its row. */
  ghost predicate HasRead(w: World, i: nat, c: CommentId, wantsReply: bool) {
    && i in w.workers && Key(c) in w.rows
    && w.workers[i] == Worker(c, w.rows[Key(c)].token, Gate(if wantsReply then PrivateReply else Telegram), wantsReply, Some(w.rows[Key(c)]))
  }

  // ── how the recording of a comment can end ─────────────────────────────────

  /** What goes wrong first: the record, with or without a trace of it, or the mark in the row. */
  datatype Failure = NotCreated(landed: bool) | NotMarked(applied: bool)

  datatype Recording =
    | Kept                                                  // created and marked
    | HandedOver(why: Failure)                              // failed, and the retry queue took it
    | NotTaken(why: Failure, landed: bool, error: string)   // failed, and the queue raised
    | NotNoted(why: Failure, applied: bool, error: string)  // failed, the queue took it, the mark raised

  function Closing(r: Row): Row { r.(airtable := AirtableStatus.Recorded, status := Completed) }
  function AfterFailure(r: Row, why: Failure): Row { if why == NotMarked(true) then Closing(r) else r }
  function Awaiting(r: Row, task: nat): Row { r.(airtable := RetryPending, retryTask := Some(task)) }
  function Unqueued(r: Row, error: string): Row {
    r.(airtable := RetryEnqueueFailed, lastError := if |error| > 500 then error[..500] else error)
  }

  /** The row, and the answer of the call: only a record that is marked, or a queue that is noted, is
      acceptance. */
  function RowAfter(r: Row, how: Recording, task: nat): Row {
    match how
    case Kept => Closing(r)
    case HandedOver(why) => Awaiting(AfterFailure(r, why), task)
    case NotTaken(why, _, error) => Unqueued(AfterFailure(r, why), error)
    case NotNoted(why, applied, error) =>
      Unqueued(if applied then Awaiting(AfterFailure(r, why), task) else AfterFailure(r, why), error)
  }

  function ResultAfter(how: Recording): Result {
    if how.Kept? || how.HandedOver? then Accepted else RejectedNotReady
  }

  predicate Creates(how: Recording) { how.Kept? || how.why.NotMarked? || how.why.landed }
  predicate Takes(how: Recording) { how.HandedOver? || how.NotNoted? || (how.NotTaken? && how.landed) }

  /** Worker `i` owns the comment and is at `pc`, its row being `r`. */
  ghost predicate At(w: World, i: nat, c: CommentId, pc: Pc, r: Row) {
    i in w.workers && w.workers[i].comment == c && w.workers[i].token == r.token && w.workers[i].pc == pc && Key(c) in w.rows && w.rows[Key(c)] == r
  }

  /** From `w` on only this worker and its row have changed. */
  ghost predicate Only(w: World, w': World, i: nat, c: CommentId, records: set<CommentId>, tasks: map<nat, Task>) {
    && i in w.workers && i in w'.workers && Key(c) in w'.rows && w'.rows == w.rows[Key(c) := w'.rows[Key(c)]]
    && w'.sends == w.sends && w'.records == records && w'.tasks == tasks
  }

  lemma FailsToRecord(w: World, i: nat, c: CommentId, r: Row, why: Failure) returns (ws: seq<World>, turns: seq<Turn>)
    requires At(w, i, c, Record, r) && !AirtableSettled(w.workers[i].seen)
    ensures Trace(ws, i, turns) && ws[0] == w && At(ws[|ws| - 1], i, c, CreateFailed, AfterFailure(r, why))
    ensures Only(w, ws[|ws| - 1], i, c, if why == NotCreated(false) then w.records else w.records + {c}, w.tasks)
    ensures ws[|ws| - 1].nextTask == w.nextTask
  {
    if why.NotCreated? {
      var w1 := WorkerTurns(w, i, Turned(w.rows, w.nextTask, w.workers[i], Create(false, why.landed)));
      assert w1.rows == w.rows[Key(c) := r];
      ws, turns := [w, w1], [Create(false, why.landed)];
    } else {
      var w1 := WorkerTurns(w, i, Turned(w.rows, w.nextTask, w.workers[i], Create(true, true)));
      assert w1.workers[i] == w.workers[i].(pc := Created) && w1.rows == w.rows;
      var w2 := WorkerTurns(w1, i, Turned(w1.rows, w1.nextTask, w1.workers[i], MarkDoneRaises(why.applied)));
      assert w2.rows == w.rows[Key(c) := AfterFailure(r, why)];
      ws, turns := [w, w1, w2], [Create(true, true), MarkDoneRaises(why.applied)];
    }
  }

  lemma IsKept(w: World, i: nat, c: CommentId, r: Row) returns (ws: seq<World>, turns: seq<Turn>)
    requires At(w, i, c, Record, r) && !AirtableSettled(w.workers[i].seen)
    ensures Trace(ws, i, turns) && ws[0] == w && At(ws[|ws| - 1], i, c, Returned(Accepted), Closing(r))
    ensures Only(w, ws[|ws| - 1], i, c, w.records + {c}, w.tasks)
  {
    var w1 := WorkerTurns(w, i, Turned(w.rows, w.nextTask, w.workers[i], Create(true, true)));
    assert w1.workers[i] == w.workers[i].(pc := Created) && w1.rows == w.rows;
    var w2 := WorkerTurns(w1, i, Turned(w1.rows, w1.nextTask, w1.workers[i], MarkDone));
    ws, turns := [w, w1, w2], [Create(true, true), MarkDone];
  }

  /** The queue raised: the row says so, and the call is rejected. */
  lemma IsNotTaken(w: World, i: nat, c: CommentId, r: Row, landed: bool, error: string) returns (ws: seq<World>, turns: seq<Turn>)
    requires At(w, i, c, CreateFailed, r)
    ensures Trace(ws, i, turns) && ws[0] == w && At(ws[|ws| - 1], i, c, Returned(RejectedNotReady), Unqueued(r, error))
    ensures Only(w, ws[|ws| - 1], i, c, w.records, if landed then w.tasks[w.nextTask := Task(c, Waiting)] else w.tasks)
  {
    var w1 := WorkerTurns(w, i, Turned(w.rows, w.nextTask, w.workers[i], Enqueue(false, landed)));
    assert At(w1, i, c, QueueFailed, r) && w1.rows == w.rows;
    var w2 := MarksFailed(w1, i, c, r, error);
    ws, turns := [w, w1, w2], [Enqueue(false, landed), MarkFailed(error)];
  }

  lemma IsQueued(w: World, i: nat, c: CommentId, r: Row) returns (w': World)
    requires At(w, i, c, CreateFailed, r)
    ensures Step(w, i, Enqueue(true, true), w') && At(w', i, c, Queued(w.nextTask), r)
    ensures Only(w, w', i, c, w.records, w.tasks[w.nextTask := Task(c, Waiting)])
  {
    w' := WorkerTurns(w, i, Turned(w.rows, w.nextTask, w.workers[i], Enqueue(true, true)));
    assert w'.rows == w.rows[Key(c) := r];
  }

  function Noted(r: Row, task: nat, how: Recording): Row
    requires how.HandedOver? || how.NotNoted?
  {
    if how.HandedOver? then Awaiting(r, task) else Unqueued(if how.applied then Awaiting(r, task) else r, how.error)
  }

  lemma MarksQueued(w: World, i: nat, c: CommentId, r: Row, task: nat) returns (w': World)
    requires At(w, i, c, Queued(task), r)
    ensures Step(w, i, MarkQueued, w') && At(w', i, c, Returned(Accepted), Awaiting(r, task)) && Only(w, w', i, c, w.records, w.tasks)
  {
    w' := WorkerTurns(w, i, Turned(w.rows, w.nextTask, w.workers[i], MarkQueued));
  }

  lemma MarkingRaises(w: World, i: nat, c: CommentId, r: Row, task: nat, applied: bool) returns (w': World)
    requires At(w, i, c, Queued(task), r)
    ensures Step(w, i, MarkQueuedRaises(applied), w') && At(w', i, c, QueueFailed, if applied then Awaiting(r, task) else r)
    ensures Only(w, w', i, c, w.records, w.tasks)
  {
    w' := WorkerTurns(w, i, Turned(w.rows, w.nextTask, w.workers[i], MarkQueuedRaises(applied)));
    assert w'.rows == w.rows[Key(c) := if applied then Awaiting(r, task) else r];
  }

  lemma MarksFailed(w: World, i: nat, c: CommentId, r: Row, error: string) returns (w': World)
    requires At(w, i, c, QueueFailed, r)
    ensures Step(w, i, MarkFailed(error), w') && At(w', i, c, Returned(RejectedNotReady), Unqueued(r, error))
    ensures Only(w, w', i, c, w.records, w.tasks)
  {
    w' := WorkerTurns(w, i, Turned(w.rows, w.nextTask, w.workers[i], MarkFailed(error)));
  }

  /** The queue took it: the row is noted, or the mark raised and the call is rejected. */
  lemma IsNoted(w: World, i: nat, c: CommentId, r: Row, task: nat, how: Recording) returns (ws: seq<World>, turns: seq<Turn>)
    requires At(w, i, c, Queued(task), r) && (how.HandedOver? || how.NotNoted?)
    ensures Trace(ws, i, turns) && ws[0] == w && At(ws[|ws| - 1], i, c, Returned(ResultAfter(how)), Noted(r, task, how))
    ensures Only(w, ws[|ws| - 1], i, c, w.records, w.tasks)
  {
    if how.HandedOver? {
      var w1 := MarksQueued(w, i, c, r, task);
      ws, turns := [w, w1], [MarkQueued];
    } else {
      var w1 := MarkingRaises(w, i, c, r, task, how.applied);
      var w2 := MarksFailed(w1, i, c, if how.applied then Awaiting(r, task) else r, how.error);
      ws, turns := [w, w1, w2], [MarkQueuedRaises(how.applied), MarkFailed(how.error)];
      assert w.rows[Key(c) := w1.rows[Key(c)]][Key(c) := w2.rows[Key(c)]] == w.rows[Key(c) := w2.rows[Key(c)]];
    }
  }

  /** Only what the recording of a comment may touch has changed, and in this way. */
  ghost predicate RecordingEnded(w: World, w': World, i: nat, c: CommentId, r: Row, how: Recording) {
    && At(w', i, c, Returned(ResultAfter(how)), RowAfter(r, how, w.nextTask))
    && Only(w, w', i, c, if Creates(how) then w.records + {c} else w.records, if Takes(how) then w.tasks[w.nextTask := Task(c, Waiting)] else w.tasks)
  }

  /** From the point of recording to the end of the call, whatever goes wrong on the way. */
  lemma HowRecordingEnds(w: World, i: nat, c: CommentId, r: Row, how: Recording) returns (ws: seq<World>, turns: seq<Turn>)
    requires At(w, i, c, Record, r) && !AirtableSettled(w.workers[i].seen)
    ensures Trace(ws, i, turns) && ws[0] == w && RecordingEnded(w, ws[|ws| - 1], i, c, r, how)
  {
    if how.Kept? {
      ws, turns := IsKept(w, i, c, r);
    } else {
      ws, turns := FailsToRecord(w, i, c, r, how.why);
      var w1, more, rest := ws[|ws| - 1], [], [];
      if how.NotTaken? {
        more, rest := IsNotTaken(w1, i, c, AfterFailure(r, how.why), how.landed, how.error);
      } else {
        more, rest := IsHandedOver(w1, i, c, AfterFailure(r, how.why), how);
      }
      Continues(ws, i, turns, more, rest);
      ws, turns := ws + more[1..], turns + rest;
      assert w.rows[Key(c) := w1.rows[Key(c)]][Key(c) := more[|more| - 1].rows[Key(c)]] == w.rows[Key(c) := more[|more| - 1].rows[Key(c)]];
    }
  }

  lemma IsHandedOver(w: World, i: nat, c: CommentId, r: Row, how: Recording) returns (ws: seq<World>, turns: seq<Turn>)
    requires At(w, i, c, CreateFailed, r) && (how.HandedOver? || how.NotNoted?)
    ensures Trace(ws, i, turns) && ws[0] == w && At(ws[|ws| - 1], i, c, Returned(ResultAfter(how)), Noted(r, w.nextTask, how))
    ensures Only(w, ws[|ws| - 1], i, c, w.records, w.tasks[w.nextTask := Task(c, Waiting)])
  {
    var w1 := IsQueued(w, i, c, r);
    var more, rest := IsNoted(w1, i, c, r, w.nextTask, how);
    assert Trace([w, w1], i, [Enqueue(true, true)]);
    Continues([w, w1], i, [Enqueue(true, true)], more, rest);
    ws, turns := [w, w1] + more[1..], [Enqueue(true, true)] + rest;
    assert w.rows[Key(c) := r][Key(c) := more[|more| - 1].rows[Key(c)]] == w.rows[Key(c) := more[|more| - 1].rows[Key(c)]];
  }

  /** Where a call that reads row `r` of its own gets: every effect that is not settled goes out once and its
      answer is recorded; then the comment is recorded, unless it is already, or the queue has it. */
  ghost predicate FinishedBy(w: World, w': World, i: nat, c: CommentId, r: Row, reply: Option<bool>, telegram: bool, how: Recording) {
    && w'.sends == w.sends + Outgoing(c, r, reply) && i in w'.workers
    && Key(c) in w'.rows && w'.rows == w.rows[Key(c) := w'.rows[Key(c)]]
    && if r.airtable.Recorded? || r.airtable.RetryPending? then
         && w'.rows[Key(c)] == AfterEffects(r, reply, telegram) && w'.workers[i].pc == Returned(Accepted)
         && w'.records == w.records && w'.tasks == w.tasks
       else
         && w'.rows[Key(c)] == RowAfter(AfterEffects(r, reply, telegram), how, w.nextTask) && w'.workers[i].pc == Returned(ResultAfter(how))
         && w'.records == (if Creates(how) then w.records + {c} else w.records)
         && w'.tasks == if Takes(how) then w.tasks[w.nextTask := Task(c, Waiting)] else w.tasks
  }

  /** The rest of the call once its effects are dealt with. */
  lemma RecordingIsFinished(w: World, i: nat, c: CommentId, r: Row, how: Recording) returns (ws: seq<World>, turns: seq<Turn>)
    requires At(w, i, c, Record, r)
    ensures Trace(ws, i, turns) && ws[0] == w
    ensures if AirtableSettled(w.workers[i].seen)
            then At(ws[|ws| - 1], i, c, Returned(Accepted), r) && Only(w, ws[|ws| - 1], i, c, w.records, w.tasks)
            else RecordingEnded(w, ws[|ws| - 1], i, c, r, how)
  {
    if AirtableSettled(w.workers[i].seen) {
      var w2 := WorkerTurns(w, i, Turned(w.rows, w.nextTask, w.workers[i], RecordSettled));
      assert w2.rows == w.rows[Key(c) := r];
      ws, turns := [w, w2], [RecordSettled];
    } else {
      ws, turns := HowRecordingEnds(w, i, c, r, how);
    }
  }

  lemma AnOwnerFinishes(ws: seq<World>, i: nat, turns: seq<Turn>, c: CommentId, reply: Option<bool>, telegram: bool, how: Recording)
    returns (ws': seq<World>, turns': seq<Turn>)
    requires Trace(ws, i, turns) && HasRead(ws[|ws| - 1], i, c, reply.Some?)
    ensures Trace(ws', i, turns') && ws'[0] == ws[0]
    ensures FinishedBy(ws[|ws| - 1], ws'[|ws'| - 1], i, c, ws[|ws| - 1].rows[Key(c)], reply, telegram, how)
  {
    var w := ws[|ws| - 1];
    var r := AfterEffects(w.rows[Key(c)], reply, telegram);
    ws', turns' := BothAreDealtWith(ws, i, turns, c, reply, telegram);
    var w1 := ws'[|ws'| - 1];
    var more, rest := RecordingIsFinished(w1, i, c, r, how);
    var w2 := more[|more| - 1];
    Continues(ws', i, turns', more, rest);
    ws', turns' := ws' + more[1..], turns' + rest;
    assert w.rows[Key(c) := r][Key(c) := w2.rows[Key(c)]] == w.rows[Key(c) := w2.rows[Key(c)]];
  }

  /** The row of a comment that was new, with its effects dealt with. */
  function Answered(token: nat, owner: string, lease: nat, reply: Option<bool>, telegram: bool): Row {
    Row(Processing, token, owner, lease,
        if reply.None? then NotApplicable else if reply.value then Done else Unknown, if telegram then Done else Unknown,
        Pending, reply == Some(false) || !telegram, None, "", Untagged)
  }

  /** A comment seen for the first time, in enforce mode: undisturbed, the call claims it, each of its
      effects goes out once and the answer is in the row, and then the comment is recorded and closed, or
      held by a waiting retry task, and the call ACCEPTED; or, when neither works, rejected. */
  lemma ACallGoesThrough(w: World, i: nat, c: CommentId, at: Circumstances, owner: string, reply: Option<bool>, telegram: bool, how: Recording)
    returns (w': World)
    requires Admit(at).Claim? && i !in w.workers && Key(c) !in w.rows
    ensures GetsTo(w, w', i) && i in w'.workers && w'.workers[i].pc == Returned(ResultAfter(how))
    ensures w'.sends == w.sends + multiset{(c, Telegram)} + if reply.Some? then multiset{(c, PrivateReply)} else multiset{}
    ensures Key(c) in w'.rows && w'.rows == w.rows[Key(c) := w'.rows[Key(c)]]
    ensures w'.rows[Key(c)] == RowAfter(Answered(w.nextToken, owner, w.clock + 60, reply, telegram), how, w.nextTask)
    ensures w'.records == (if Creates(how) then w.records + {c} else w.records)
    ensures w'.tasks == if Takes(how) then w.tasks[w.nextTask := Task(c, Waiting)] else w.tasks
  {
    var ws, turns := IsClaimed(w, i, c, at, owner, reply.Some?);
    var w1 := ws[|ws| - 1];
    ws, turns := AnOwnerFinishes(ws, i, turns, c, reply, telegram, how);
    w' := ws[|ws| - 1];
    NewIsAnswered(w.nextToken, owner, w.clock + 60, reply, telegram);
    assert w.rows[Key(c) := w1.rows[Key(c)]][Key(c) := w'.rows[Key(c)]] == w.rows[Key(c) := w'.rows[Key(c)]];
    TraceGetsTo(w, ws, i, turns, Start(i, c, at, owner, reply.Some?));
  }

  lemma IsClaimed(w: World, i: nat, c: CommentId, at: Circumstances, owner: string, wantsReply: bool) returns (ws: seq<World>, turns: seq<Turn>)
    requires Admit(at).Claim? && i !in w.workers && Key(c) !in w.rows
    ensures Enabled(w, Start(i, c, at, owner, wantsReply)) && Trace(ws, i, turns) && ws[0] == Exec(w, Start(i, c, at, owner, wantsReply))
    ensures var w' := ws[|ws| - 1];
            && HasRead(w', i, c, wantsReply) && w'.rows == w.rows[Key(c) := NewRow(Processing, w.nextToken, owner, w.clock + 60, Untagged)]
            && w'.sends == w.sends && w'.records == w.records && w'.tasks == w.tasks && w'.nextTask == w.nextTask
  {
    var w1 := ComesIn(w, i, c, at, owner, wantsReply);
    ws, turns := Reads([w1], i, []);
  }

  lemma NewIsAnswered(token: nat, owner: string, lease: nat, reply: Option<bool>, telegram: bool)
    ensures AfterEffects(NewRow(Processing, token, owner, lease, Untagged), reply, telegram) == Answered(token, owner, lease, reply, telegram)
    ensures forall c :: Outgoing(c, NewRow(Processing, token, owner, lease, Untagged), reply)
                        == multiset{(c, Telegram)} + if reply.Some? then multiset{(c, PrivateReply)} else multiset{}
  {
  }

  /** In the other modes the call ends there and then: shadow mode leaves a row that can never be claimed,
      if there was none; and a call that is not let in leaves nothing. */
  lemma OtherCallsReturn(w: World, i: nat, c: CommentId, at: Circumstances, owner: string, wantsReply: bool)
    requires !Admit(at).Claim? && i !in w.workers
    ensures var w' := Exec(w, Start(i, c, at, owner, wantsReply));
            && w'.workers[i].pc == Returned(if Admit(at).Reject? then RejectedNotReady else Legacy)
            && (Admit(at).Reject? ==> w'.rows == w.rows && w'.legacy == w.legacy)
            && (Admit(at).GoLegacy? ==> w'.rows == w.rows && w'.legacy == w.legacy + {c})
            && (Admit(at).Observe? ==>
                  w'.legacy == w.legacy + {c} && w'.rows.Keys == w.rows.Keys + {Key(c)} && (forall k | k in w.rows :: w'.rows[k] == w.rows[k])
                  && (Key(c) !in w.rows ==>
                        w'.rows[Key(c)] == Row(Processing, w.nextToken, owner, w.clock + 60, NotApplicable, NotApplicable, Pending, false, None, "", ShadowSeen)))
            && w'.sends == w.sends && w'.records == w.records && w'.tasks == w.tasks
  {
  }

  /** A call for a comment that is not there for the taking is told why, and leaves no trace. */
  lemma ARepeatIsTurnedAway(w: World, i: nat, c: CommentId, at: Circumstances, owner: string, wantsReply: bool) returns (w': World)
    requires Admit(at).Claim? && i !in w.workers && Key(c) in w.rows && !w.rows[Key(c)].Stale(w.clock)
    ensures GetsTo(w, w', i) && i in w'.workers
    ensures w'.rows == w.rows && w'.sends == w.sends && w'.records == w.records && w'.tasks == w.tasks
    ensures var r := w.rows[Key(c)];
            w'.workers[i].pc == Returned(if r.airtable.RetryPending? then RetryOwned
                                         else if r.status.Completed? || r.status.Dead? then DuplicateCompleted else InProgress)
  {
    var w1 := ComesIn(w, i, c, at, owner, wantsReply);
    var w2 := WorkerTurns(w1, i, Turned(w1.rows, w1.nextTask, w1.workers[i], TakeOver(owner)));
    assert w2.workers[i].pc == Refused && w2.rows == w.rows;
    w' := WorkerTurns(w2, i, Turned(w2.rows, w2.nextTask, w2.workers[i], ReadRefusal));
    assert Trace([w1, w2, w'], i, [TakeOver(owner), ReadRefusal]);
    TraceGetsTo(w, [w1, w2, w'], i, [TakeOver(owner), ReadRefusal], Start(i, c, at, owner, wantsReply));
  }

  lemma StaleIsRead(w: World, i: nat, c: CommentId, at: Circumstances, owner: string, wantsReply: bool) returns (ws: seq<World>, turns: seq<Turn>)
    requires Admit(at).Claim? && i !in w.workers && Key(c) in w.rows
    requires w.rows[Key(c)].status.Processing? && w.rows[Key(c)].lease < w.clock && w.rows[Key(c)].tag.Untagged?
    ensures Enabled(w, Start(i, c, at, owner, wantsReply)) && Trace(ws, i, turns) && ws[0] == Exec(w, Start(i, c, at, owner, wantsReply))
    ensures HasRead(ws[|ws| - 1], i, c, wantsReply)
    ensures var w' := ws[|ws| - 1];
            && w'.sends == w.sends && w'.records == w.records && w'.tasks == w.tasks && w'.nextTask == w.nextTask
            && w'.rows == w.rows[Key(c) := TakenOver(w.rows[Key(c)], w.nextToken, owner, w.clock + LEASE_SECONDS)]
  {
    var w1 := ComesIn(w, i, c, at, owner, wantsReply);
    var w2 := WorkerTurns(w1, i, Turned(w1.rows, w1.nextTask, w1.workers[i], TakeOver(owner)));
    assert w2.workers[i].pc == Claimed;
    assert Trace([w1, w2], i, [TakeOver(owner)]);
    ws, turns := Reads([w1, w2], i, [TakeOver(owner)]);
  }

  /** The row a stalled call leaves behind, in the hands of the next: what was begun has an unknown
      outcome, and is for a person to look at. */
  ghost predicate InheritedBy(r: Row, r': Row, token: nat, owner: string, lease: nat) {
    && r' == r.(token := token, claimedBy := owner, lease := lease, privateReply := r'.privateReply, telegram := r'.telegram, manualReview := r'.manualReview)
    && (forall e: Effect :: r'.Of(e) == if r.Of(e).Started? then Unknown else r.Of(e))
    && (r'.manualReview <==> r.manualReview || exists e: Effect :: r.Of(e).Started?)
  }

  /** What a stalled call began is not begun again, and what it never began still goes out: the next call
      takes the row over, deals with the effects that are not settled, and finishes the recording unless
      that is done, or the queue has it. */
  lemma AStaleCallIsFinished(w: World, i: nat, c: CommentId, at: Circumstances, owner: string, reply: Option<bool>, telegram: bool, how: Recording)
    returns (w': World, r: Row)
    requires Admit(at).Claim? && i !in w.workers && Key(c) in w.rows
    requires w.rows[Key(c)].status.Processing? && w.rows[Key(c)].lease < w.clock && w.rows[Key(c)].tag.Untagged?
    ensures InheritedBy(w.rows[Key(c)], r, w.nextToken, owner, w.clock + 60)
    ensures GetsTo(w, w', i) && FinishedBy(w, w', i, c, r, reply, telegram, how)
  {
    var ws, turns := StaleIsRead(w, i, c, at, owner, reply.Some?);
    var w1 := ws[|ws| - 1];
    r := w1.rows[Key(c)];
    ws, turns := AnOwnerFinishes(ws, i, turns, c, reply, telegram, how);
    w' := ws[|ws| - 1];
    TakenOverInherits(w.rows[Key(c)], w.nextToken, owner, w.clock + 60);
    assert w.rows[Key(c) := w1.rows[Key(c)]][Key(c) := w'.rows[Key(c)]] == w.rows[Key(c) := w'.rows[Key(c)]];
    TraceGetsTo(w, ws, i, turns, Start(i, c, at, owner, reply.Some?));
  }

  lemma TakenOverInherits(r: Row, token: nat, owner: string, lease: nat)
    ensures InheritedBy(r, TakenOver(r, token, owner, lease), token, owner, lease)
  {
    assert r.privateReply == r.Of(PrivateReply) && r.telegram == r.Of(Telegram);
  }

  /** A call that lost its claim does not send: from the gate of an effect it goes on to the next, and its
      record, should it come to one, is not acceptance; the row is left to its owner. */
  lemma AFencedCallGivesWay(w: World, i: nat)
    requires i in w.workers && !Owns(w.rows, Key(w.workers[i].comment), w.workers[i].token)
    ensures w.workers[i].pc.Gate? && !Settled(w.workers[i].seen, w.workers[i].pc.e) ==>
              var w' := Exec(w, Work(i, Begin));
              w'.rows == w.rows && w'.sends == w.sends
              && w'.workers[i].pc == (if w.workers[i].pc.e.PrivateReply? then Gate(Telegram) else Record)
    ensures w.workers[i].pc.Created? ==>
              var w' := Exec(w, Work(i, MarkDone)); w'.rows == w.rows && w'.workers[i].pc == Returned(RejectedNotReady)
    ensures w.workers[i].pc.Queued? ==>
              var w' := Exec(w, Work(i, MarkQueued)); w'.rows == w.rows && w'.workers[i].pc == Returned(RejectedNotReady)
  {
  }

  /** An answer that cannot be recorded as DONE counts as unknown, even if it was good. */
  lemma AnUnrecordedAnswerIsUnknown(w: World, i: nat, applied: bool)
    requires i in w.workers && w.workers[i].pc == Sent(Telegram, true) && Owns(w.rows, Key(w.workers[i].comment), w.workers[i].token)
    ensures Enabled(w, Work(i, ConfirmRaises(applied))) && Enabled(Exec(w, Work(i, ConfirmRaises(applied))), Work(i, Confirm))
    ensures var k, w' := Key(w.workers[i].comment), Exec(Exec(w, Work(i, ConfirmRaises(applied))), Work(i, Confirm));
            && w'.rows == w.rows[k := w.rows[k].With(Telegram, Unknown).(manualReview := true)]
            && w'.workers[i].pc == Record && w'.sends == w.sends
  {
    var x, k, w1 := w.workers[i], Key(w.workers[i].comment), Exec(w, Work(i, ConfirmRaises(applied)));
    assert w1.workers[i] == x.(pc := Sent(Telegram, false));
    assert w1.rows == if applied then w.rows[k := w.rows[k].With(Telegram, Done)] else w.rows;
  }

  /** The retry queue makes good for a failed recording: an undisturbed execution creates the record,
      closes the row and finishes the task. */
  lemma TheQueueRecords(w: World, j: nat, t: nat) returns (acts: seq<Action>, w': World)
    requires j !in w.runs && t in w.tasks && w.tasks[t].status.Waiting?
    requires Key(w.tasks[t].comment) in w.rows && w.rows[Key(w.tasks[t].comment)].airtable.RetryPending?
    ensures Leads(w, acts, w') && |acts| == 4
    ensures var c := w.tasks[t].comment;
            w' == w.(records := w.records + {c}, tasks := w.tasks[t := Task(c, Finished)],
                     rows := w.rows[Key(c) := w.rows[Key(c)].(airtable := AirtableStatus.Recorded, status := Completed)])
  {
    var w1, w2, w3;
    w1, w2, w3, w' := QueueSteps(w, j, t);
    assert Leads(w, [], w);
    OneMore(w, [], w, RunTask(j, t));
    OneMore(w, [] + [RunTask(j, t)], w1, RunCreate(j));
    OneMore(w, [] + [RunTask(j, t)] + [RunCreate(j)], w2, RunMark(j));
    OneMore(w, [] + [RunTask(j, t)] + [RunCreate(j)] + [RunMark(j)], w3, RunFinish(j));
    acts := [] + [RunTask(j, t)] + [RunCreate(j)] + [RunMark(j)] + [RunFinish(j)];
  }

  lemma QueueSteps(w: World, j: nat, t: nat) returns (w1: World, w2: World, w3: World, w': World)
    requires j !in w.runs && t in w.tasks && w.tasks[t].status.Waiting?
    requires Key(w.tasks[t].comment) in w.rows && w.rows[Key(w.tasks[t].comment)].airtable.RetryPending?
    ensures Enabled(w, RunTask(j, t)) && w1 == Exec(w, RunTask(j, t))
    ensures Enabled(w1, RunCreate(j)) && w2 == Exec(w1, RunCreate(j))
    ensures Enabled(w2, RunMark(j)) && w3 == Exec(w2, RunMark(j))
    ensures Enabled(w3, RunFinish(j)) && w' == Exec(w3, RunFinish(j))
    ensures var c := w.tasks[t].comment;
            w' == w.(records := w.records + {c}, tasks := w.tasks[t := Task(c, Finished)],
                     rows := w.rows[Key(c) := w.rows[Key(c)].(airtable := AirtableStatus.Recorded, status := Completed)])
  {
    w1 := Exec(w, RunTask(j, t));
    w2 := Exec(w1, RunCreate(j));
    assert w2.runs[j] == TaskRun(t, Stored);
    w3 := Exec(w2, RunMark(j));
    assert w3.runs[j] == TaskRun(t, Marked);
    w' := Exec(w3, RunFinish(j));
    assert w'.runs == w.runs;
  }

  /** And when it gives up, the comment is declared dead, in the table as in the queue; an execution that
      merely fails leaves the task waiting. */
  lemma TheQueueGivesUp(w: World, j: nat, t: nat, dead: bool)
    requires j !in w.runs && t in w.tasks && w.tasks[t].status.Waiting?
    ensures Enabled(Exec(w, RunTask(j, t)), RunFail(j, dead))
    ensures var w2 := Exec(Exec(w, RunTask(j, t)), RunFail(j, dead));
            && w2.rows == w.rows && w2.records == w.records && w2.runs == w.runs
            && w2.tasks == if dead then w.tasks[t := Task(w.tasks[t].comment, GivenUp)] else w.tasks
    ensures var k, w2 := Key(w.tasks[t].comment), Exec(Exec(w, RunTask(j, t)), RunFail(j, true));
            k in w.rows && w.rows[k].retryTask == Some(t) ==>
              Enabled(w2, SyncDead(t, k)) && Exec(w2, SyncDead(t, k)).rows == w.rows[k := w.rows[k].(status := EventStore.Dead)]
  {
    var w1 := Exec(w, RunTask(j, t));
    assert Exec(w1, RunFail(j, dead)).runs == w.runs;
  }
}
