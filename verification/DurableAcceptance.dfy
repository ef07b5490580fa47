/** What it means for a comment to be accepted: it is suppressed, or its Airtable record exists, or
    a retry task holds it.  The poller (modules/comment/comment_poller.py) and the webhook
    (modules/dm/dm_receiver.py) treat a comment as done only on that condition. */
module DurableAcceptance {
  import opened Wrappers
  import opened EventStore
  import opened Admission
  import opened CommentProtocol

  ghost predicate Holds(w: World, t: nat, c: CommentId) {
    t in w.tasks && w.tasks[t].comment == c
  }

  ghost predicate Safe(w: World, c: CommentId) {
    || (Key(c) in w.rows && w.rows[Key(c)].tag.PreCutoverSuppressed?)
    || c in w.records
    || exists t :: Holds(w, t, c) && !w.tasks[t].status.Finished?
  }

  predicate Durable(r: Result) { r.Accepted? || r.DuplicateCompleted? || r.RetryOwned? }

  ghost predicate Owed(w: World, task: Option<nat>, c: CommentId) {
    task.Some? && Holds(w, task.value, c)
  }

  ghost predicate RowAccounted(w: World, c: CommentId, r: Row) {
    && (r.airtable.Recorded? ==> c in w.records)
    && (r.airtable.RetryPending? || r.status.Dead? ==> r.retryTask.Some?)
    && (r.retryTask.Some? ==> Owed(w, r.retryTask, c))
    && (r.status.Completed? ==> r.tag.PreCutoverSuppressed? || c in w.records)
  }

  ghost predicate WorkerAccounted(w: World, x: Worker) {
    && (x.pc.Lost? || x.pc.Refused? ==> Key(x.comment) in w.rows)
    && (x.pc.Created? ==> x.comment in w.records)
    && (x.pc.Queued? ==> Holds(w, x.pc.task, x.comment))
    && (AirtableSettled(x.seen) ==> x.comment in w.records || Owed(w, x.seen.value.retryTask, x.comment))
    && (x.pc.Returned? && Durable(x.pc.result) ==> Safe(w, x.comment))
    && (x.pc.Returned? && x.pc.result.Legacy? ==> x.comment in w.legacy)
  }

  ghost predicate QueueOk(w: World) {
    && (forall t :: t in w.tasks ==> t < w.nextTask && (w.tasks[t].status.Finished? ==> w.tasks[t].comment in w.records))
    && (forall j :: j in w.runs ==>
          w.runs[j].task in w.tasks && (!w.runs[j].pc.Starting? ==> w.tasks[w.runs[j].task].comment in w.records))
  }

  ghost predicate AcceptInv(w: World) {
    && QueueOk(w)
    && (forall c :: Key(c) in w.rows ==> RowAccounted(w, c, w.rows[Key(c)]))
    && (forall i :: i in w.workers ==> WorkerAccounted(w, w.workers[i]))
  }

  // ── what never shrinks ─────────────────────────────────────────────────────

  ghost predicate Grows(w: World, w': World) {
    && w.records <= w'.records
    && w.legacy <= w'.legacy
    && (forall t :: t in w.tasks ==> t in w'.tasks && w'.tasks[t].comment == w.tasks[t].comment)
    && (forall c :: Key(c) in w.rows ==> Key(c) in w'.rows && w'.rows[Key(c)].tag == w.rows[Key(c)].tag)
  }

  lemma StepGrows(w: World, a: Action)
    requires AcceptInv(w) && Enabled(w, a)
    ensures Grows(w, Exec(w, a))
  {
    forall c | Key(c) in w.rows
      ensures Key(c) in Exec(w, a).rows && Exec(w, a).rows[Key(c)].tag == w.rows[Key(c)].tag
    {
      StepEvolves(w, a, c);
    }
  }

  lemma SafeStays(w: World, w': World, c: CommentId)
    requires QueueOk(w) && QueueOk(w') && Grows(w, w') && Safe(w, c)
    ensures Safe(w', c)
  {
    if t :| Holds(w, t, c) && !w.tasks[t].status.Finished? {
      assert Holds(w', t, c);
    }
  }

  lemma OwedIsSafe(w: World, t: nat, c: CommentId)
    requires QueueOk(w) && Holds(w, t, c)
    ensures Safe(w, c)
  {
  }

  // ── one step ───────────────────────────────────────────────────────────────

  lemma QueueStep(w: World, a: Action)
    requires AcceptInv(w) && Enabled(w, a)
    ensures QueueOk(Exec(w, a))
  {
  }

  lemma RowStays(w: World, w': World, c: CommentId, r: Row)
    requires Grows(w, w') && RowAccounted(w, c, r)
    ensures RowAccounted(w', c, r)
  {
  }

  lemma OtherRowsStay(w: World, i: nat, ch: Change, c: CommentId)
    requires c != ch.x.comment && Key(c) in WorkerTurns(w, i, ch).rows
    ensures Key(c) in w.rows && WorkerTurns(w, i, ch).rows[Key(c)] == w.rows[Key(c)]
  {
  }

  lemma RowTurn(w: World, i: nat, turn: Turn, c: CommentId)
    requires AcceptInv(w) && Enabled(w, Work(i, turn)) && Key(c) in Exec(w, Work(i, turn)).rows
    ensures RowAccounted(Exec(w, Work(i, turn)), c, Exec(w, Work(i, turn)).rows[Key(c)])
  {
    var ch := Turned(w.rows, w.nextTask, w.workers[i], turn);
    TurnRuns(w.rows, w.nextTask, w.workers[i], turn);
    StepGrows(w, Work(i, turn));
    if c == w.workers[i].comment {
      OwnRowTurn(w, i, turn);
    } else {
      OtherRowsStay(w, i, ch, c);
      RowStays(w, WorkerTurns(w, i, ch), c, w.rows[Key(c)]);
    }
  }

  lemma OwnRowTurn(w: World, i: nat, turn: Turn)
    requires AcceptInv(w) && Enabled(w, Work(i, turn)) && Grows(w, Exec(w, Work(i, turn)))
    ensures var c, w' := w.workers[i].comment, Exec(w, Work(i, turn));
            Key(c) in w'.rows ==> RowAccounted(w', c, w'.rows[Key(c)])
  {
    assert WorkerAccounted(w, w.workers[i]);
    TurnRuns(w.rows, w.nextTask, w.workers[i], turn);
  }

  lemma RowStep(w: World, a: Action, c: CommentId)
    requires AcceptInv(w) && Enabled(w, a) && Key(c) in Exec(w, a).rows
    ensures RowAccounted(Exec(w, a), c, Exec(w, a).rows[Key(c)])
  {
    if a.Work? {
      RowTurn(w, a.i, a.turn, c);
    } else {
      StepGrows(w, a);
    }
  }

  lemma BystanderAccounted(w: World, w': World, x: Worker)
    requires QueueOk(w) && QueueOk(w') && Grows(w, w') && WorkerAccounted(w, x)
    ensures WorkerAccounted(w', x)
  {
    if Safe(w, x.comment) {
      SafeStays(w, w', x.comment);
    }
  }

  lemma VerdictIsSafe(w: World, c: CommentId)
    requires AcceptInv(w) && Key(c) in w.rows && Durable(Verdict(w.rows, Key(c)))
    ensures Safe(w, c)
  {
    var r := w.rows[Key(c)];
    assert RowAccounted(w, c, r);
    if r.retryTask.Some? {
      OwedIsSafe(w, r.retryTask.value, c);
    }
  }

  lemma ActorAccounted(w: World, i: nat, turn: Turn)
    requires AcceptInv(w) && Enabled(w, Work(i, turn))
    ensures WorkerAccounted(Exec(w, Work(i, turn)), Exec(w, Work(i, turn)).workers[i])
  {
    var a, x := Work(i, turn), w.workers[i];
    var w' := Exec(w, a);
    assert WorkerAccounted(w, x);
    QueueStep(w, a);
    StepGrows(w, a);
    match turn
    case ReadRefusal =>
      if Durable(Verdict(w.rows, Key(x.comment))) {
        VerdictIsSafe(w, x.comment);
        SafeStays(w, w', x.comment);
      }
    case ReadRow => if Key(x.comment) in w.rows { assert RowAccounted(w, x.comment, w.rows[Key(x.comment)]); }
    case RecordSettled => if x.comment !in w.records { OwedIsSafe(w', x.seen.value.retryTask.value, x.comment); }
    case MarkQueued => OwedIsSafe(w', x.pc.task, x.comment);
    case _ =>
  }

  lemma AcceptInvStep(w: World, a: Action)
    requires AcceptInv(w) && Enabled(w, a)
    ensures AcceptInv(Exec(w, a)) && Grows(w, Exec(w, a))
  {
    QueueStep(w, a);
    StepGrows(w, a);
    forall c | Key(c) in Exec(w, a).rows ensures RowAccounted(Exec(w, a), c, Exec(w, a).rows[Key(c)]) {
      RowStep(w, a, c);
    }
    forall i | i in Exec(w, a).workers ensures WorkerAccounted(Exec(w, a), Exec(w, a).workers[i]) {
      if a.Work? && a.i == i {
        ActorAccounted(w, i, a.turn);
      } else if i in w.workers {
        BystanderAccounted(w, Exec(w, a), w.workers[i]);
      }
    }
  }

  // ── the poller and the webhook ─────────────────────────────────────────────

  datatype Door = Webhook | Poller
  datatype Incoming = Incoming(id: CommentId, hasText: bool)
  datatype Phase = Comments | Turned503 | Messages | Saved

  /** Comments, each with how the call that let it in came in: Claim in enforce mode on a campaign post,
      otherwise Observe or GoLegacy. */
  type Admitted = map<CommentId, Entry>

  /** One request of the webhook, or one sweep of the poller over a media. */
  datatype Ingress = Ingress(
    door: Door,
    batch: seq<Incoming>,
    next: nat,
    current: Option<(nat, Entry)>,   // the call of process_comment_event in progress
    failed: bool,                    // durable_accept_failed
    called: set<nat>,                // the items of the batch that were processed
    answered: map<nat, Entry>,       // of those, the ones that were answered well
    known: Admitted,                 // the poller's cache as it loaded it
    added: Admitted,                 // new_ids
    phase: Phase)

  datatype System = System(w: World, cache: Admitted, doors: map<nat, Ingress>)

  datatype Move =
    | Protocol(a: Action)
    | Arrive(d: nat, door: Door, batch: seq<Incoming>)
    | Pass(d: nat)
    | Call(d: nat, i: nat, at: Circumstances, owner: string, wantsReply: bool)
    | Answer(d: nat)
    | Close(d: nat, kept: Admitted)

  /** The loops skip this item: nothing to process, or the poller knows it already. */
  predicate Skipped(g: Ingress, item: Incoming) {
    item.id == "" || (if g.door.Webhook? then !item.hasText else item.id in g.known || item.id in g.added)
  }

  predicate Cacheable(pc: Pc) {
    pc.Returned? && (Durable(pc.result) || pc.result.Legacy?)
  }

  predicate PartOf(kept: Admitted, all: Admitted) { forall c | c in kept :: c in all && kept[c] == all[c] }

  ghost predicate CanMove(s: System, m: Move) {
    match m
    case Protocol(a) => Enabled(s.w, a)
    case Arrive(d, _, _) => d !in s.doors
    case Pass(d) =>
      d in s.doors && var g := s.doors[d];
      g.phase.Comments? && g.current.None? && g.next < |g.batch| && Skipped(g, g.batch[g.next])
    case Call(d, i, _, _, _) =>
      d in s.doors && var g := s.doors[d];
      g.phase.Comments? && g.current.None? && g.next < |g.batch| && !Skipped(g, g.batch[g.next]) && i !in s.w.workers
    case Answer(d) =>
      d in s.doors && var g := s.doors[d];
      g.phase.Comments? && g.current.Some? && g.next < |g.batch| && g.current.value.0 in s.w.workers
      && (s.w.workers[g.current.value.0].pc.Returned? || s.w.workers[g.current.value.0].pc.Raised?)
    case Close(d, kept) =>
      d in s.doors && var g := s.doors[d];
      g.phase.Comments? && g.current.None? && g.next == |g.batch| && PartOf(kept, g.known + g.added)
  }

  /** The answer to the item at hand: good answers are kept, of any other the webhook takes note. */
  function Answered(g: Ingress, fine: bool): Ingress
    requires g.current.Some? && g.next < |g.batch|
  {
    var c, how := g.batch[g.next].id, g.current.value.1;
    g.(next := g.next + 1, current := None, failed := g.failed || !fine,
       answered := if fine then g.answered[g.next := how] else g.answered,
       added := if fine && g.door.Poller? then g.added[c := how] else g.added)
  }

  ghost function Moves(s: System, m: Move): System
    requires CanMove(s, m)
  {
    match m
    case Protocol(a) => s.(w := Exec(s.w, a))
    case Arrive(d, door, batch) =>
      s.(doors := s.doors[d := Ingress(door, batch, 0, None, false, {}, map[], if door.Poller? then s.cache else map[], map[], Comments)])
    case Pass(d) => s.(doors := s.doors[d := s.doors[d].(next := s.doors[d].next + 1)])
    case Call(d, i, at, owner, wantsReply) =>
      var g := s.doors[d];
      s.(w := Exec(s.w, Start(i, g.batch[g.next].id, at, owner, wantsReply)), doors := s.doors[d := g.(current := Some((i, Admit(at))), called := g.called + {g.next})])
    case Answer(d) =>
      s.(doors := s.doors[d := Answered(s.doors[d], Cacheable(s.w.workers[s.doors[d].current.value.0].pc))])
    case Close(d, kept) =>
      var g := s.doors[d];
      match g.door
      case Webhook => s.(doors := s.doors[d := g.(phase := if g.failed then Turned503 else Messages)])
      case Poller =>
        // the cache file is replaced by (at most) what was loaded and what was added, and only if something was added
        s.(cache := if g.added == map[] then s.cache else kept, doors := s.doors[d := g.(phase := Saved)])
  }

  ghost predicate Run(s: System, moves: seq<Move>, s': System)
    decreases |moves|
  {
    if moves == [] then s' == s
    else CanMove(s, moves[0]) && Run(Moves(s, moves[0]), moves[1..], s')
  }

  const START := System(Init(), map[], map[])

  /** Let in by a call in enforce mode: durably accepted, whatever else was ever done to it.  Let in by a
      call outside it: handled then and there. */
  ghost predicate Dealt(w: World, c: CommentId, how: Entry) {
    match how
    case Claim => Safe(w, c)
    case Reject => false
    case _ => c in w.legacy
  }

  ghost predicate AllDealt(w: World, cs: Admitted) { forall c :: c in cs ==> Dealt(w, c, cs[c]) }

  /** A call answers as it came in: only one that went past the store answers `legacy`, and does so at once. */
  predicate AnswersAs(pc: Pc, how: Entry) {
    match how
    case Claim => pc.Returned? ==> !pc.result.Legacy?
    case Reject => pc == Returned(RejectedNotReady)
    case _ => pc == Returned(Legacy)
  }

  ghost predicate CallOk(w: World, g: Ingress) {
    g.current.Some? ==>
      && g.next < |g.batch| && g.current.value.0 in w.workers
      && w.workers[g.current.value.0].comment == g.batch[g.next].id && AnswersAs(w.workers[g.current.value.0].pc, g.current.value.1)
  }

  predicate Wanted(item: Incoming) { item.id != "" && item.hasText }

  ghost predicate DoorOk(w: World, g: Ingress) {
    && g.next <= |g.batch| && CallOk(w, g)
    && AllDealt(w, g.known) && AllDealt(w, g.added)
    && (forall n :: n in g.answered ==> n < |g.batch| && Dealt(w, g.batch[n].id, g.answered[n]))
    && (g.door.Webhook? && !g.failed ==> forall n :: 0 <= n < g.next && Wanted(g.batch[n]) ==> n in g.answered)
    && (g.phase.Messages? ==> g.door.Webhook? && !g.failed && g.next == |g.batch|)
  }

  ghost predicate SystemInv(s: System) {
    && AcceptInv(s.w)
    && AllDealt(s.w, s.cache)
    && (forall d :: d in s.doors ==> DoorOk(s.w, s.doors[d]))
  }

  /** Workers are never removed, never change their comment, and answer as they came in. */
  lemma WorkersStay(w: World, a: Action, i: nat)
    requires Enabled(w, a) && i in w.workers
    ensures i in Exec(w, a).workers && Exec(w, a).workers[i].comment == w.workers[i].comment
    ensures forall how :: AnswersAs(w.workers[i].pc, how) ==> AnswersAs(Exec(w, a).workers[i].pc, how)
  {
    if a.Work? {
      TurnRuns(w.rows, w.nextTask, w.workers[a.i], a.turn);
    }
  }

  lemma DealtStays(w: World, a: Action, c: CommentId, how: Entry)
    requires AcceptInv(w) && Enabled(w, a) && AcceptInv(Exec(w, a)) && Grows(w, Exec(w, a)) && Dealt(w, c, how)
    ensures Dealt(Exec(w, a), c, how)
  {
    if how.Claim? {
      SafeStays(w, Exec(w, a), c);
    }
  }

  lemma DoorStays(w: World, a: Action, g: Ingress)
    requires AcceptInv(w) && Enabled(w, a) && DoorOk(w, g)
    ensures DoorOk(Exec(w, a), g)
  {
    AcceptInvStep(w, a);
    if g.current.Some? {
      WorkersStay(w, a, g.current.value.0);
    }
    forall c, how | Dealt(w, c, how) ensures Dealt(Exec(w, a), c, how) {
      DealtStays(w, a, c, how);
    }
  }

  lemma WorldMoves(s: System, a: Action)
    requires SystemInv(s) && Enabled(s.w, a)
    ensures SystemInv(s.(w := Exec(s.w, a)))
  {
    AcceptInvStep(s.w, a);
    forall c, how | Dealt(s.w, c, how) ensures Dealt(Exec(s.w, a), c, how) {
      DealtStays(s.w, a, c, how);
    }
    forall d | d in s.doors ensures DoorOk(Exec(s.w, a), s.doors[d]) {
      DoorStays(s.w, a, s.doors[d]);
    }
  }

  /** A good answer means what it says about the comment it was given for. */
  lemma AnswerIsDealt(s: System, d: nat)
    requires SystemInv(s) && CanMove(s, Answer(d)) && Cacheable(s.w.workers[s.doors[d].current.value.0].pc)
    ensures Dealt(s.w, s.doors[d].batch[s.doors[d].next].id, s.doors[d].current.value.1)
  {
    assert WorkerAccounted(s.w, s.w.workers[s.doors[d].current.value.0]) && DoorOk(s.w, s.doors[d]);
  }

  lemma AnswerMove(s: System, d: nat)
    requires SystemInv(s) && CanMove(s, Answer(d))
    ensures SystemInv(Moves(s, Answer(d)))
  {
    var fine := Cacheable(s.w.workers[s.doors[d].current.value.0].pc);
    assert DoorOk(s.w, s.doors[d]);
    if fine {
      AnswerIsDealt(s, d);
    }
    assert DoorOk(s.w, Answered(s.doors[d], fine));
  }

  lemma CloseMove(s: System, d: nat, kept: Admitted)
    requires SystemInv(s) && CanMove(s, Close(d, kept))
    ensures SystemInv(Moves(s, Close(d, kept)))
  {
    assert DoorOk(s.w, s.doors[d]);
  }

  lemma CallMove(s: System, d: nat, i: nat, at: Circumstances, owner: string, wantsReply: bool)
    requires SystemInv(s) && CanMove(s, Call(d, i, at, owner, wantsReply))
    ensures SystemInv(Moves(s, Call(d, i, at, owner, wantsReply)))
  {
    var g := s.doors[d];
    var a := Start(i, g.batch[g.next].id, at, owner, wantsReply);
    WorldMoves(s, a);
    assert DoorOk(Exec(s.w, a), g);
  }

  lemma OpenMove(s: System, m: Move)
    requires SystemInv(s) && CanMove(s, m) && (m.Arrive? || m.Pass?)
    ensures SystemInv(Moves(s, m))
  {
  }

  lemma SystemInvMove(s: System, m: Move)
    requires SystemInv(s) && CanMove(s, m)
    ensures SystemInv(Moves(s, m))
  {
    match m
    case Protocol(a) => WorldMoves(s, a);
    case Call(d, i, at, owner, wantsReply) => CallMove(s, d, i, at, owner, wantsReply);
    case Answer(d) => AnswerMove(s, d);
    case Close(d, kept) => CloseMove(s, d, kept);
    case _ => OpenMove(s, m);
  }

  lemma {:induction false} SystemInvRun(s: System, moves: seq<Move>, s': System)
    requires SystemInv(s) && Run(s, moves, s')
    ensures SystemInv(s')
    ensures forall c :: Safe(s.w, c) ==> Safe(s'.w, c)
    decreases |moves|
  {
    if moves != [] {
      var m, s1 := moves[0], Moves(s, moves[0]);
      SystemInvMove(s, m);
      SystemInvRun(s1, moves[1..], s');
      forall c | Safe(s.w, c) ensures Safe(s1.w, c) {
        match m
        case Protocol(a) => StepGrows(s.w, a); SafeStays(s.w, s1.w, c);
        case Call(d, i, at, owner, wantsReply) =>
          StepGrows(s.w, Start(i, s.doors[d].batch[s.doors[d].next].id, at, owner, wantsReply));
          SafeStays(s.w, s1.w, c);
        case _ =>
      }
    }
  }

  // ── the doors keep what they are given ─────────────────────────────────────

  /** The item at `n` was answered well. */
  predicate Good(g: Ingress, n: nat) { n in g.answered }

  /** An item that has to be processed: for the webhook, a comment with an id and a text; for the poller,
      one it does not know, and of which no earlier copy was answered well. */
  ghost predicate ToProcess(g: Ingress, n: nat)
    requires n < |g.batch|
  {
    if g.door.Webhook? then Wanted(g.batch[n])
    else g.batch[n].id != "" && g.batch[n].id !in g.known && forall m: nat | m < n && Good(g, m) :: g.batch[m].id != g.batch[n].id
  }

  /** How far the door has come in its batch. */
  function Reach(g: Ingress): nat { g.next + if g.current.Some? then 1 else 0 }

  ghost predicate CalledRight(g: Ingress) {
    && Reach(g) <= |g.batch|
    && (forall n: nat :: n in g.called ==> n < Reach(g))
    && (forall n: nat :: n < Reach(g) ==> (n in g.called <==> ToProcess(g, n)))
  }

  /** A door against what was answered so far: the webhook has failed exactly when some comment it had to
      process was not answered well, the poller adds exactly the comments that were. */
  ghost predicate DoorExact(g: Ingress) {
    && g.next <= |g.batch| && (forall n: nat :: Good(g, n) ==> n < g.next)
    && (g.current.Some? ==> g.next < |g.batch| && !Skipped(g, g.batch[g.next]))
    && (g.door.Webhook? ==> (g.failed <==> exists n: nat :: n < g.next && Wanted(g.batch[n]) && !Good(g, n)))
    && (g.door.Poller? ==> forall c :: c in g.added <==> exists n: nat :: n < g.next && Good(g, n) && g.batch[n].id == c)
    && (g.phase.Messages? ==> g.door.Webhook? && !g.failed) && (g.phase.Turned503? ==> g.door.Webhook? && g.failed)
    && CalledRight(g) && (g.phase.Saved? ==> g.door.Poller?) && (!g.phase.Comments? ==> g.current.None?)
    && (!g.phase.Comments? ==> g.next == |g.batch|)
  }

  /** What an answer does to a door: each of the four good ones is kept, any other, or an exception, fails
      the webhook's request. */
  lemma AnswerIsKept(s: System, d: nat)
    requires CanMove(s, Answer(d))
    ensures var g, pc, s' := s.doors[d], s.w.workers[s.doors[d].current.value.0].pc, Moves(s, Answer(d));
            var g', good := s'.doors[d], pc in {Returned(Accepted), Returned(DuplicateCompleted), Returned(RetryOwned), Returned(Legacy)};
            && g' == g.(next := g.next + 1, current := None, failed := g.failed || !good,
                        answered := if good then g.answered[g.next := g.current.value.1] else g.answered,
                        added := if good && g.door.Poller? then g.added[g.batch[g.next].id := g.current.value.1] else g.added)
            && s' == s.(doors := s.doors[d := g'])
  {
  }

  lemma AnsweredExactly(g: Ingress, fine: bool)
    requires DoorExact(g) && g.current.Some? && g.phase.Comments?
    ensures DoorExact(Answered(g, fine))
  {
    var g' := Answered(g, fine);
    CalledAfterAnswer(g, fine);
    assert forall n: nat :: n != g.next ==> Good(g', n) == Good(g, n);
    assert !Good(g, g.next);
    assert Good(g', g.next) == fine;
    forall c ensures g.door.Poller? ==> (c in g'.added <==> exists n: nat :: n < g'.next && Good(g', n) && g'.batch[n].id == c) {
      if n: nat :| n < g'.next && Good(g', n) && g'.batch[n].id == c {
        assert n == g.next || Good(g, n);
      }
      if n: nat :| n < g.next && Good(g, n) && g.batch[n].id == c {
        assert n < g'.next && Good(g', n);
      }
    }
    if g.failed && g.door.Webhook? {
      var n: nat :| n < g.next && Wanted(g.batch[n]) && !Good(g, n);
      assert n < g'.next && !Good(g', n);
    }
  }

  lemma CalledAfterAnswer(g: Ingress, fine: bool)
    requires DoorExact(g) && g.current.Some?
    ensures CalledRight(Answered(g, fine))
  {
    var g' := Answered(g, fine);
    assert !Good(g, g.next);
    forall n: nat | n < Reach(g) ensures ToProcess(g', n) == ToProcess(g, n) {
      assert forall m: nat :: m < n ==> Good(g', m) == Good(g, m);
    }
  }

  lemma CalledNext(g: Ingress, g': Ingress)
    requires DoorExact(g) && g.current.None? && g.next < |g.batch| && Reach(g') == g.next + 1
    requires g' == g.(next := g'.next, current := g'.current, called := if Skipped(g, g.batch[g.next]) then g.called else g.called + {g.next})
    ensures CalledRight(g')
  {
    forall n: nat | n < Reach(g') ensures ToProcess(g', n) == ToProcess(g, n) {
      assert forall m: nat :: Good(g', m) == Good(g, m);
    }
    if g.door.Poller? { AddedMeans(g); }
    assert ToProcess(g, g.next) <==> !Skipped(g, g.batch[g.next]);
  }

  lemma AddedMeans(g: Ingress)
    requires DoorExact(g) && g.next < |g.batch| && g.door.Poller?
    ensures g.batch[g.next].id in g.added <==> !(forall m: nat | m < g.next && Good(g, m) :: g.batch[m].id != g.batch[g.next].id)
  {
  }

  lemma PassedExactly(g: Ingress)
    requires DoorExact(g) && g.phase.Comments? && g.current.None? && g.next < |g.batch| && Skipped(g, g.batch[g.next])
    ensures DoorExact(g.(next := g.next + 1))
  {
    var g' := g.(next := g.next + 1);
    CalledNext(g, g');
    assert forall n: nat :: Good(g', n) == Good(g, n);
    assert !Good(g, g.next);
    if g.door.Webhook? && g.failed {
      var n: nat :| n < g.next && Wanted(g.batch[n]) && !Good(g, n);
      assert n < g'.next && !Good(g', n);
    }
    forall c ensures g.door.Poller? ==> (c in g'.added <==> exists n: nat :: n < g'.next && Good(g', n) && g'.batch[n].id == c) {
      if n: nat :| n < g.next && Good(g, n) && g.batch[n].id == c {
        assert n < g'.next && Good(g', n);
      }
    }
  }

  lemma ExactMove(s: System, m: Move)
    requires CanMove(s, m) && forall d :: d in s.doors ==> DoorExact(s.doors[d])
    ensures forall d :: d in Moves(s, m).doors ==> DoorExact(Moves(s, m).doors[d])
  {
    forall k | k in Moves(s, m).doors ensures DoorExact(Moves(s, m).doors[k]) {
      if k in s.doors {
        DoorMove(s, m, k);
      }
    }
  }

  lemma DoorMove(s: System, m: Move, k: nat)
    requires CanMove(s, m) && k in s.doors && DoorExact(s.doors[k])
    ensures DoorExact(Moves(s, m).doors[k])
  {
    var g := s.doors[k];
    match m
    case Answer(d) => if d == k { AnsweredExactly(g, Cacheable(s.w.workers[g.current.value.0].pc)); }
    case Pass(d) => if d == k { PassedExactly(g); }
    case Call(d, i, at, _, _) => if d == k { CalledExactly(g, i, Admit(at)); }
    case Close(d, _) => if d == k { ClosedExactly(g, Moves(s, m).doors[d].phase); }
    case _ =>
  }

  lemma CalledExactly(g: Ingress, i: nat, how: Entry)
    requires DoorExact(g) && g.phase.Comments? && g.current.None? && g.next < |g.batch| && !Skipped(g, g.batch[g.next])
    ensures DoorExact(g.(current := Some((i, how)), called := g.called + {g.next}))
  {
    var g' := g.(current := Some((i, how)), called := g.called + {g.next});
    CalledNext(g, g');
    SameAnswers(g, g');
  }

  lemma ClosedExactly(g: Ingress, phase: Phase)
    requires DoorExact(g) && g.current.None? && g.next == |g.batch|
    requires if g.door.Poller? then phase.Saved? else if g.failed then phase.Turned503? else phase.Messages?
    ensures DoorExact(g.(phase := phase))
  {
    var g' := g.(phase := phase);
    forall n: nat | n < |g.batch| ensures ToProcess(g', n) == ToProcess(g, n) {
      assert forall m: nat :: Good(g', m) == Good(g, m);
    }
    SameAnswers(g, g');
  }

  lemma SameAnswers(g: Ingress, g': Ingress)
    requires DoorExact(g) && g' == g.(current := g'.current, called := g'.called, phase := g'.phase) && CalledRight(g')
    requires !g'.phase.Comments? ==> g'.current.None?
    requires g'.current.Some? ==> g.next < |g.batch| && !Skipped(g', g.batch[g.next])
    requires g'.phase == g.phase || (g.next == |g.batch| && (if g.door.Poller? then g'.phase.Saved? else if g.failed then g'.phase.Turned503? else g'.phase.Messages?))
    ensures DoorExact(g')
  {
    assert forall n: nat :: Good(g', n) == Good(g, n);
  }

  lemma {:induction false} ExactRun(s: System, moves: seq<Move>, s': System)
    requires Run(s, moves, s') && forall d :: d in s.doors ==> DoorExact(s.doors[d])
    ensures forall d :: d in s'.doors ==> DoorExact(s'.doors[d])
    decreases |moves|
  {
    if moves != [] {
      ExactMove(s, moves[0]);
      ExactRun(Moves(s, moves[0]), moves[1..], s');
    }
  }

  /** Nothing is turned away that was accepted: a webhook request goes on to its direct messages exactly
      when all its comments were answered well, and is sent back exactly when one was not; a finished sweep
      of the poller has added exactly the comments that were; and both have processed exactly the items
      they had to. */
  lemma DoorsAreExact(moves: seq<Move>, s: System, d: nat)
    requires Run(START, moves, s) && d in s.doors && !s.doors[d].phase.Comments?
    ensures var g := s.doors[d];
            && (g.door.Webhook? ==> (g.phase.Messages? <==> forall n: nat :: n < |g.batch| && Wanted(g.batch[n]) ==> n in g.answered))
            && (g.door.Webhook? ==> (g.phase.Turned503? <==> exists n: nat :: n < |g.batch| && Wanted(g.batch[n]) && n !in g.answered))
            && (g.door.Poller? ==> forall c :: c in g.added <==> exists n: nat :: n in g.answered && n < |g.batch| && g.batch[n].id == c)
            && (forall n: nat :: n < |g.batch| ==> (n in g.called <==> ToProcess(g, n)))
  {
    ExactRun(START, moves, s);
    var g := s.doors[d];
    assert forall n: nat :: Good(g, n) <==> n in g.answered;
  }

  /** At its end the sweep replaces the cache with what it may keep of the comments it knew and added, and
      with all of them when nothing has to go; a sweep that added nothing leaves the cache alone. */
  lemma SweepFillsTheCache(s: System, d: nat, kept: Admitted)
    requires CanMove(s, Close(d, kept)) && s.doors[d].door.Poller?
    ensures var g, s' := s.doors[d], Moves(s, Close(d, kept));
            && s'.doors[d] == g.(phase := Saved) && s'.w == s.w
            && (g.added == map[] ==> s'.cache == s.cache) && (g.added != map[] ==> s'.cache == kept)
            && (kept == g.known + g.added ==> forall c :: c in g.added ==> c in s'.cache && s'.cache[c] == g.added[c])
  {
    var g, c0 := s.doors[d], s.doors[d].added;
    assert forall c :: c in c0 ==> c0 != map[];
  }

  /** A comment the poller cached, and every comment of a webhook request that went on to its direct
      messages, is durably accepted if its own call came in enforce mode on a campaign post, no matter how
      the comment was handled before or after; if not, it was handled by that call. */
  lemma AcceptedMeansDurable(moves: seq<Move>, s: System)
    requires Run(START, moves, s)
    ensures forall c :: c in s.cache ==> Dealt(s.w, c, s.cache[c])
    ensures forall d, n :: d in s.doors && s.doors[d].phase.Messages? && 0 <= n < |s.doors[d].batch| && Wanted(s.doors[d].batch[n]) ==>
              n in s.doors[d].answered && Dealt(s.w, s.doors[d].batch[n].id, s.doors[d].answered[n])
  {
    SystemInvRun(START, moves, s);
  }

  /** Acceptance is never lost again. */
  lemma DurableForGood(before: seq<Move>, s: System, later: seq<Move>, s': System, c: CommentId)
    requires Run(START, before, s) && Run(s, later, s') && Safe(s.w, c)
    ensures Safe(s'.w, c)
  {
    SystemInvRun(START, before, s);
    SystemInvRun(s, later, s');
  }
}
