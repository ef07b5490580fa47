/** Automatic replies to direct messages that carry a persistent event: the webhook handler
    (modules/dm/dm_receiver.py), the two reply paths and the retry handler (modules/dm/dm_auto_reply.py),
    all over the same event store. */
module DmProtocol {
  import opened Wrappers
  import opened EventStore

  const COMMENT_SOURCE := "instagram_comment"
  const LEASE_SECONDS := 60

  /** What one call of send_ig_reply came to. */
  datatype Attempt = NotSent | Responded(status: int) | Threw
  datatype Outcome = Delivered | DefiniteFailure | Ambiguous

  /** send_ig_reply returned True. */
  predicate SentOk(a: Attempt) { a.Responded? && a.status < 400 }

  /** _last_send_failure_is_definite, after a False. */
  predicate FailureIsDefinite(a: Attempt) {
    a.NotSent? || (a.Responded? && 400 <= a.status < 500)
  }

  function OutcomeOf(a: Attempt): Outcome {
    if SentOk(a) then Delivered
    else if !a.Threw? && FailureIsDefinite(a) then DefiniteFailure
    else Ambiguous
  }

  /** What the answer to a send really says, whatever the code makes of it: it may have arrived unless
      nothing was sent, or the server refused it. */
  predicate MayHaveArrived(a: Attempt) {
    match a
    case NotSent => false
    case Responded(status) => status < 400 || status > 499
    case Threw => true
  }

  datatype Pc =
    | Lost(now: nat, lease: nat)     // the INSERT of the claim was ignored
    | Storing                        // claimed; the message is not recorded yet
    | Completing(reply: bool)        // recorded, or handed to the retry queue (then no reply)
    | Deciding                       // the claim was confirmed; which reply, if any?
    | TplRead | TplBegin | TplOut | TplAfter(o: Outcome)
    | AiRead | AiBegin | AiThink | AiOut | AiAfter(o: Outcome) | AiQueue | AiGiveUp
    | RetryRead | RetryBegin | RetryOut | RetryAfter(o: Outcome)
    | Over

  datatype Proc = Proc(key: EventKey, token: nat, retry: bool, pc: Pc)
  datatype Task = Task(key: EventKey, token: nat)    // an ig_auto_reply task with its dm_event

  datatype World = World(
    rows: Rows,
    clock: nat,
    nextToken: nat,
    procs: map<nat, Proc>,
    tasks: map<nat, Task>,
    nextTask: nat,
    attempts: seq<(EventKey, Attempt)>,  // the replies that were tried, in order
    unsure: multiset<EventKey>,      // of those, the ones the code did not take for a definite failure
    passed: multiset<EventKey>)      // claims confirmed: handlers that went on to reply

  function Init(): World { World(map[], 0, 0, map[], map[], 0, [], multiset{}, multiset{}) }

  /** One turn of a process.  A write that is lost, or an exception with nothing left to do, is the
      turn followed (or replaced) by Die. */
  datatype Turn =
    | TakeOver(owner: string)
    | Store(ok: bool)
    | Complete
    | Choose(reply: Pc)
    | Read
    | Begin
    | Think(text: bool)
    | Send(a: Attempt)
    | Settle                         // record the outcome of a send
    | Enqueue(ok: bool, landed: bool)
    | Fumble(applied: bool)          // an exception inside the AI path: on to marking UNKNOWN
    | Die

  datatype Action =
    | Tick(seconds: nat)
    | Arrive(p: nat, k: EventKey, owner: string)
    | RunRetry(p: nat, t: nat)       // any number of executions of a task, at any time
    | Work(p: nat, turn: Turn)
    | Bury(k: EventKey)              // mark_dead
    | Foreign(rows: Rows)            // anything done to comment events

  predicate CanTurn(pc: Pc, turn: Turn) {
    match turn
    case TakeOver(_) => pc.Lost?
    case Store(_) => pc.Storing?
    case Complete => pc.Completing?
    case Choose(r) => pc.Deciding? && (r.TplRead? || r.AiRead? || r.Over?)
    case Read => pc.TplRead? || pc.AiRead? || pc.RetryRead?
    case Begin => pc.TplBegin? || pc.AiBegin? || pc.RetryBegin?
    case Think(_) => pc.AiThink?
    case Send(_) => pc.TplOut? || pc.AiOut? || pc.RetryOut?
    case Settle => (pc.TplAfter? && !pc.o.DefiniteFailure?) || pc.AiAfter? || pc.RetryAfter? || pc.AiGiveUp?
    case Enqueue(_, _) => (pc.TplAfter? && pc.o.DefiniteFailure?) || pc.AiQueue?
    case Fumble(_) => pc.AiThink? || pc.AiAfter?
    case Die => true
  }

  datatype Change = Change(pc: Pc, op: Option<Op>, queues: bool, sent: Option<Attempt>, unsure: bool, passes: bool)

  function Moved(pc: Pc): Change { Change(pc, None, false, None, false, false) }
  function Ran(pc: Pc, op: Op): Change { Moved(pc).(op := Some(op)) }

  const RETRYABLE: set<EffectStatus> := {Started, NotApplicable}

  function State(rows: Rows, k: EventKey): EffectStatus {
    if k in rows then rows[k].privateReply else NotApplicable
  }

  function Turned(rows: Rows, x: Proc, turn: Turn): Change
    requires CanTurn(x.pc, turn)
  {
    var k, t, owns := x.key, x.token, Owns(rows, x.key, x.token);
    var st := State(rows, k);
    match turn
    case TakeOver(owner) =>
      Ran(if k in rows && rows[k].Stale(x.pc.now) then Storing else Over, OpReclaim(t, owner, x.pc.now, x.pc.lease))
    case Store(ok) => Moved(Completing(ok))
    case Complete =>
      Ran(if owns && x.pc.reply then Deciding else Over, OpRecorded(t)).(passes := owns && x.pc.reply)
    case Choose(reply) => Moved(reply)
    case Read =>
      match x.pc {
        case TplRead => Moved(if st.Started? || st.Unknown? || st.Done? then Over else TplBegin)
        case AiRead => Moved(if st.NotApplicable? then AiBegin else Over)
        case _ => Moved(if !owns || st.Done? || st.Unknown? || st.Sending? then Over else RetryBegin)
      }
    case Begin =>
      match x.pc {
        case TplBegin => Ran(if owns then TplOut else Over, OpSetEffect(t, PrivateReply, Started))
        case AiBegin =>
          Ran(if MayBegin(rows, k, t, PrivateReply, {NotApplicable}) then AiThink else Over, OpBegin(t, PrivateReply, {NotApplicable}))
        case _ =>
          Ran(if MayBegin(rows, k, t, PrivateReply, RETRYABLE) then RetryOut else Over, OpBegin(t, PrivateReply, RETRYABLE))
      }
    case Think(text) => if text then Moved(AiOut) else Ran(Over, OpFail(t, PrivateReply))
    case Send(a) =>
      var o := OutcomeOf(a);
      Moved(if x.pc.TplOut? then TplAfter(o) else if x.pc.AiOut? then AiAfter(o) else RetryAfter(o))
      .(sent := Some(a), unsure := !o.DefiniteFailure?)
    case Settle =>
      if x.pc.AiGiveUp? then Ran(Over, OpUnknown(t, PrivateReply))
      else
        (match x.pc.o
         case Delivered => Ran(Over, OpSetEffect(t, PrivateReply, Done))
         case DefiniteFailure => Ran(if x.pc.AiAfter? then AiQueue else Over, OpFail(t, PrivateReply))
         case Ambiguous => Ran(Over, OpUnknown(t, PrivateReply)))
    case Enqueue(ok, landed) =>
      Moved(if ok || x.pc.TplAfter? then Over else AiGiveUp).(queues := ok || landed)
    case Fumble(applied) =>
      if applied && x.pc.AiAfter? && x.pc.o.Delivered? then Ran(AiGiveUp, OpSetEffect(t, PrivateReply, Done))
      else if applied && (x.pc.AiThink? || x.pc.o.DefiniteFailure?) then Ran(AiGiveUp, OpFail(t, PrivateReply))
      else Moved(AiGiveUp)
    case Die => Moved(Over)
  }

  ghost predicate Enabled(w: World, a: Action) {
    match a
    case Tick(_) => true
    case Arrive(p, k, _) => p !in w.procs && k.source != COMMENT_SOURCE
    case RunRetry(p, t) => p !in w.procs && t in w.tasks
    case Work(p, turn) => p in w.procs && CanTurn(w.procs[p].pc, turn)
    case Bury(_) => true
    case Foreign(rows) =>
      forall k: EventKey :: k.source != COMMENT_SOURCE ==> (k in rows <==> k in w.rows) && (k in rows ==> rows[k] == w.rows[k])
  }

  function Worked(w: World, p: nat, ch: Change): World
    requires p in w.procs
  {
    var k, t := w.procs[p].key, w.procs[p].token;
    w.(procs := w.procs[p := w.procs[p].(pc := ch.pc)],
       rows := RowsAfter(w.rows, k, ch),
       tasks := if ch.queues then w.tasks[w.nextTask := Task(k, t)] else w.tasks,
       nextTask := if ch.queues then w.nextTask + 1 else w.nextTask,
       attempts := if ch.sent.Some? then w.attempts + [(k, ch.sent.value)] else w.attempts,
       unsure := if ch.unsure then w.unsure + multiset{k} else w.unsure,
       passed := if ch.passes then w.passed + multiset{k} else w.passed)
  }

  ghost function Exec(w: World, a: Action): World
    requires Enabled(w, a)
  {
    match a
    case Tick(d) => w.(clock := w.clock + d)
    case Arrive(p, k, owner) =>
      w.(rows := Insert(w.rows, k, NewRow(Processing, w.nextToken, owner, w.clock + LEASE_SECONDS, Untagged)),
         nextToken := w.nextToken + 1,
         procs := w.procs[p := Proc(k, w.nextToken, false, if k in w.rows then Lost(w.clock, w.clock + LEASE_SECONDS) else Storing)])
    case RunRetry(p, t) => w.(procs := w.procs[p := Proc(w.tasks[t].key, w.tasks[t].token, true, RetryRead)])
    case Work(p, turn) => Worked(w, p, Turned(w.rows, w.procs[p], turn))
    case Bury(k) => w.(rows := MarkDead(w.rows, k))
    case Foreign(rows) => w.(rows := rows)
  }

  ghost predicate Leads(w: World, acts: seq<Action>, w': World)
    decreases |acts|
  {
    if acts == [] then w' == w
    else Enabled(w, acts[0]) && Leads(Exec(w, acts[0]), acts[1..], w')
  }

  // ── the invariant ──────────────────────────────────────────────────────────

  predicate Early(pc: Pc) {
    pc.Deciding? || pc.TplRead? || pc.TplBegin? || pc.TplOut? || pc.TplAfter?
    || pc.AiRead? || pc.AiBegin? || pc.AiThink? || pc.AiOut? || pc.AiAfter? || pc.AiQueue?
  }
  predicate Past(pc: Pc) { Early(pc) || pc.AiGiveUp? }
  predicate Retrying(pc: Pc) { pc.RetryRead? || pc.RetryBegin? || pc.RetryOut? || pc.RetryAfter? }
  predicate Sending(pc: Pc) { pc.TplOut? || pc.AiOut? || pc.RetryOut? }
  predicate Holding(pc: Pc) { pc.RetryOut? || pc.RetryAfter? }

  ghost predicate HasTask(w: World, k: EventKey) {
    exists t :: t in w.tasks && w.tasks[t].key == k
  }

  /** What the point a process has reached says about the state of its event. */
  predicate Fits(pc: Pc, st: EffectStatus, sure: bool) {
    && (pc.Deciding? || pc.TplRead? || pc.TplBegin? || pc.AiRead? || pc.AiBegin? ==> st.NotApplicable? && sure)
    && (pc.TplOut? ==> st.Started? && sure)
    && (pc.TplAfter? && pc.o.DefiniteFailure? ==> sure)
    && (pc.AiThink? || pc.AiOut? ==> st.Sending? && sure)
    && (pc.AiAfter? ==> st.Sending? && (pc.o.DefiniteFailure? ==> sure))
    && (pc.AiQueue? ==> st.Started? && sure)
    && (pc.RetryOut? ==> (st.Sending? || st.Unknown?) && sure)
    && (pc.RetryAfter? ==> !st.NotApplicable? && !st.Started? && (pc.o.DefiniteFailure? ==> !st.Done? && sure))
  }

  /** A process against its event: `passed`, `queued` and `sure` say whether some handler had its claim
      confirmed, whether a retry task exists, and whether no reply of uncertain outcome went out yet. */
  predicate ProcFits(rows: Rows, x: Proc, passed: bool, queued: bool, sure: bool) {
    var k, pc := x.key, x.pc;
    && (x.retry ==> Retrying(pc) || pc.Over?)
    && (Retrying(pc) ==> x.retry && queued && Owns(rows, k, x.token))
    && (pc.Lost? || pc.Storing? || pc.Completing? ==> k in rows)
    && (pc.Lost? ==> !Owns(rows, k, x.token))
    && (Past(pc) ==> passed && Owns(rows, k, x.token))
    && (Early(pc) ==> !queued)
    && (Owns(rows, k, x.token) && passed ==> !pc.Storing? && !pc.Completing?)
    && Fits(pc, State(rows, k), sure)
  }

  predicate EventFits(rows: Rows, k: EventKey, passed: bool, queued: bool, sure: bool) {
    && (passed ==> k in rows && rows[k].Closed())
    && (!passed ==> State(rows, k).NotApplicable? && sure && !queued)
    && (!sure && queued ==> !State(rows, k).NotApplicable? && !State(rows, k).Started?)
  }

  ghost predicate ProcOk(w: World, x: Proc) {
    && x.key.source != COMMENT_SOURCE && x.token < w.nextToken
    && ProcFits(w.rows, x, x.key in w.passed, HasTask(w, x.key), w.unsure[x.key] == 0)
  }

  ghost predicate KeyOk(w: World, k: EventKey) {
    && w.unsure[k] <= 1 && w.passed[k] <= 1
    && (k in w.rows ==> w.rows[k].token < w.nextToken)
    && EventFits(w.rows, k, k in w.passed, HasTask(w, k), w.unsure[k] == 0)
  }

  ghost predicate Apart(w: World) {
    && (forall p, q :: p in w.procs && q in w.procs && p != q && !w.procs[p].retry && !w.procs[q].retry
          ==> w.procs[p].token != w.procs[q].token)
    && (forall p, q :: p in w.procs && q in w.procs && w.procs[p].key == w.procs[q].key && p != q
          ==> !(Holding(w.procs[p].pc) && Holding(w.procs[q].pc)))
    && (forall t :: t in w.tasks ==> t < w.nextTask && Owns(w.rows, w.tasks[t].key, w.tasks[t].token)
                                     && w.tasks[t].key.source != COMMENT_SOURCE)
  }

  ghost predicate Inv(w: World) {
    && Apart(w)
    && (forall p :: p in w.procs ==> ProcOk(w, w.procs[p]))
    && (forall k: EventKey :: k.source != COMMENT_SOURCE ==> KeyOk(w, k))
  }

  // ── one step ───────────────────────────────────────────────────────────────

  /** Two processes can be past their claim for one event only if they are the same, and while the
      first handler is under way nobody is retrying. */
  lemma Alone(w: World, p: nat, q: nat)
    requires Inv(w) && p in w.procs && q in w.procs && p != q && w.procs[p].key == w.procs[q].key
    ensures !(Past(w.procs[p].pc) && Past(w.procs[q].pc))
    ensures !(Early(w.procs[p].pc) && Retrying(w.procs[q].pc))
  {
    assert ProcOk(w, w.procs[p]) && ProcOk(w, w.procs[q]);
  }

  /** What a turn may do, whoever takes it: a process writes under its own token, only one past its
      claim touches the reply state, only the first handler leaves a task. */
  predicate Lawful(rows: Rows, x: Proc, ch: Change) {
    && (ch.op.Some? && !ch.op.value.OpReclaim? ==>
          && (ch.op.value.OpRecorded? || ch.op.value.OpSetEffect? || ch.op.value.OpUnknown? || ch.op.value.OpBegin? || ch.op.value.OpFail?)
          && ch.op.value.token == x.token)
    && (ch.op.Some? && !Past(x.pc) && !Retrying(x.pc) ==> ch.op.value.OpRecorded? || (ch.op.value.OpReclaim? && x.pc.Lost? && ch.op.value.token == x.token))
    && (ch.op.Some? && (Past(x.pc) || Retrying(x.pc)) ==> !ch.op.value.OpReclaim? && !ch.op.value.OpRecorded? && ch.op.value.e.PrivateReply?)
    && (ch.op.Some? && x.pc.AiGiveUp? ==> ch.op.value.OpUnknown?)
    && (ch.op.Some? && (x.pc.RetryRead? || x.pc.RetryBegin?) ==> ch.op.value.OpBegin? && ch.op.value.from == RETRYABLE)
    && (Holding(ch.pc) && !Holding(x.pc) ==> MayBegin(rows, x.key, x.token, PrivateReply, RETRYABLE))
    && (ch.queues ==> Early(x.pc))
    && (ch.passes ==> x.pc.Completing? && Owns(rows, x.key, x.token))
    && (ch.sent.Some? ==> Sending(x.pc))
    && (ch.unsure <==> ch.sent.Some? && MayHaveArrived(ch.sent.value))
  }

  lemma TurnIsLawful(rows: Rows, x: Proc, turn: Turn)
    requires CanTurn(x.pc, turn)
    ensures Lawful(rows, x, Turned(rows, x, turn))
  {
  }

  /** A turn of `p` leaves the other events as they were; it adds a task for its own event only. */
  lemma WorkStaysHome(w: World, p: nat, ch: Change, k: EventKey)
    requires p in w.procs && (forall t :: t in w.tasks ==> t < w.nextTask)
    ensures var x, w' := w.procs[p], Worked(w, p, ch);
            && (k != x.key ==>
                  && (k in w'.rows <==> k in w.rows) && (k in w.rows ==> w'.rows[k] == w.rows[k])
                  && w'.unsure[k] == w.unsure[k] && w'.passed[k] == w.passed[k])
            && (HasTask(w', k) <==> HasTask(w, k) || (k == x.key && ch.queues))
  {
    var x, w' := w.procs[p], Worked(w, p, ch);
    if HasTask(w, k) {
      var t :| t in w.tasks && w.tasks[t].key == k;
      assert t in w'.tasks && w'.tasks[t].key == k;
    }
    if k == x.key && ch.queues {
      assert w.nextTask in w'.tasks && w'.tasks[w.nextTask].key == k;
    }
    if HasTask(w', k) {
      var t :| t in w'.tasks && w'.tasks[t].key == k;
      assert t in w.tasks || (t == w.nextTask && ch.queues);
    }
  }

  lemma BystanderKept(w: World, p: nat, ch: Change, q: nat)
    requires Inv(w) && p in w.procs && q in w.procs && q != p && Lawful(w.rows, w.procs[p], ch)
    ensures ProcOk(Worked(w, p, ch), w.procs[q])
  {
    var x, y := w.procs[p], w.procs[q];
    WorkStaysHome(w, p, ch, y.key);
    assert ProcOk(w, y);
    if x.key == y.key {
      assert ProcOk(w, x) && KeyOk(w, y.key);
      Alone(w, p, q);
      Alone(w, q, p);
      if Past(x.pc) { BesideAHandler(w, p, ch, q); }
      else if Retrying(x.pc) { BesideARetry(w, p, ch, q); }
      else { BesideAClaim(w, p, ch, q); }
    }
  }

  lemma BesideAHandler(w: World, p: nat, ch: Change, q: nat)
    requires Inv(w) && p in w.procs && q in w.procs && q != p && Lawful(w.rows, w.procs[p], ch)
    requires w.procs[p].key == w.procs[q].key && Past(w.procs[p].pc)
    ensures ProcOk(Worked(w, p, ch), w.procs[q])
  {
    WorkStaysHome(w, p, ch, w.procs[q].key);
    Alone(w, p, q);
    assert ProcOk(w, w.procs[p]) && ProcOk(w, w.procs[q]);
  }

  lemma BesideARetry(w: World, p: nat, ch: Change, q: nat)
    requires Inv(w) && p in w.procs && q in w.procs && q != p && Lawful(w.rows, w.procs[p], ch)
    requires w.procs[p].key == w.procs[q].key && Retrying(w.procs[p].pc)
    ensures ProcOk(Worked(w, p, ch), w.procs[q])
  {
    WorkStaysHome(w, p, ch, w.procs[q].key);
    Alone(w, q, p);
    assert ProcOk(w, w.procs[p]) && ProcOk(w, w.procs[q]);
  }

  lemma BesideAClaim(w: World, p: nat, ch: Change, q: nat)
    requires Inv(w) && p in w.procs && q in w.procs && q != p && Lawful(w.rows, w.procs[p], ch)
    requires w.procs[p].key == w.procs[q].key && !Past(w.procs[p].pc) && !Retrying(w.procs[p].pc)
    ensures ProcOk(Worked(w, p, ch), w.procs[q])
  {
    var k := w.procs[q].key;
    WorkStaysHome(w, p, ch, k);
    assert ProcOk(w, w.procs[p]) && ProcOk(w, w.procs[q]) && KeyOk(w, k);
    if k !in w.passed {
      assert !Past(w.procs[q].pc) && !Retrying(w.procs[q].pc);
    }
  }

  function RowsAfter(rows: Rows, k: EventKey, ch: Change): Rows {
    if ch.op.Some? then Run(rows, k, ch.op.value) else rows
  }

  /** The actor and its event still fit each other after the turn. */
  predicate AfterTurn(rows: Rows, x: Proc, ch: Change, passed: bool, queued: bool, sure: bool) {
    && ProcFits(RowsAfter(rows, x.key, ch), x.(pc := ch.pc), passed || ch.passes, queued || ch.queues, sure && !ch.unsure)
    && EventFits(RowsAfter(rows, x.key, ch), x.key, passed || ch.passes, queued || ch.queues, sure && !ch.unsure)
    && (ch.unsure ==> sure) && (ch.passes ==> !passed)
  }

  predicate Templating(pc: Pc) { pc.TplRead? || pc.TplBegin? || pc.TplOut? || pc.TplAfter? }
  predicate Thinking(pc: Pc) { Past(pc) && !Templating(pc) && !pc.Deciding? }

  lemma TemplateKept(rows: Rows, x: Proc, turn: Turn, passed: bool, queued: bool, sure: bool)
    requires CanTurn(x.pc, turn) && ProcFits(rows, x, passed, queued, sure) && EventFits(rows, x.key, passed, queued, sure) && Templating(x.pc)
    ensures AfterTurn(rows, x, Turned(rows, x, turn), passed, queued, sure)
  {
  }

  lemma AiKept(rows: Rows, x: Proc, turn: Turn, passed: bool, queued: bool, sure: bool)
    requires CanTurn(x.pc, turn) && ProcFits(rows, x, passed, queued, sure) && EventFits(rows, x.key, passed, queued, sure) && Thinking(x.pc)
    ensures AfterTurn(rows, x, Turned(rows, x, turn), passed, queued, sure)
  {
  }

  lemma RetryKept(rows: Rows, x: Proc, turn: Turn, passed: bool, queued: bool, sure: bool)
    requires CanTurn(x.pc, turn) && ProcFits(rows, x, passed, queued, sure) && EventFits(rows, x.key, passed, queued, sure) && Retrying(x.pc)
    ensures AfterTurn(rows, x, Turned(rows, x, turn), passed, queued, sure)
  {
  }

  lemma ClaimKept(rows: Rows, x: Proc, turn: Turn, passed: bool, queued: bool, sure: bool)
    requires CanTurn(x.pc, turn) && ProcFits(rows, x, passed, queued, sure) && EventFits(rows, x.key, passed, queued, sure)
    requires !Templating(x.pc) && !Thinking(x.pc) && !Retrying(x.pc)
    ensures AfterTurn(rows, x, Turned(rows, x, turn), passed, queued, sure)
  {
  }

  lemma TurnKeeps(rows: Rows, x: Proc, turn: Turn, passed: bool, queued: bool, sure: bool)
    requires CanTurn(x.pc, turn) && ProcFits(rows, x, passed, queued, sure) && EventFits(rows, x.key, passed, queued, sure)
    ensures AfterTurn(rows, x, Turned(rows, x, turn), passed, queued, sure)
  {
    if Templating(x.pc) { TemplateKept(rows, x, turn, passed, queued, sure); }
    else if Thinking(x.pc) { AiKept(rows, x, turn, passed, queued, sure); }
    else if Retrying(x.pc) { RetryKept(rows, x, turn, passed, queued, sure); }
    else { ClaimKept(rows, x, turn, passed, queued, sure); }
  }

  lemma ActorKept(w: World, p: nat, ch: Change)
    requires Inv(w) && p in w.procs && Lawful(w.rows, w.procs[p], ch)
    requires var x := w.procs[p]; AfterTurn(w.rows, x, ch, x.key in w.passed, HasTask(w, x.key), w.unsure[x.key] == 0)
    ensures var w' := Worked(w, p, ch); ProcOk(w', w'.procs[p]) && KeyOk(w', w'.procs[p].key)
  {
    assert ProcOk(w, w.procs[p]) && KeyOk(w, w.procs[p].key);
    WorkStaysHome(w, p, ch, w.procs[p].key);
  }

  /** A retry task names the token that owns its event, and no turn takes the event from it. */
  lemma TasksStayOwned(w: World, p: nat, ch: Change, t: nat)
    requires Inv(w) && p in w.procs && Lawful(w.rows, w.procs[p], ch) && t in Worked(w, p, ch).tasks
    requires ch.queues ==> Owns(RowsAfter(w.rows, w.procs[p].key, ch), w.procs[p].key, w.procs[p].token)
    ensures var w' := Worked(w, p, ch);
            t < w'.nextTask && Owns(w'.rows, w'.tasks[t].key, w'.tasks[t].token) && w'.tasks[t].key.source != COMMENT_SOURCE
  {
    assert ProcOk(w, w.procs[p]);
    if t in w.tasks {
      assert HasTask(w, w.tasks[t].key) && KeyOk(w, w.tasks[t].key);
      WorkStaysHome(w, p, ch, w.tasks[t].key);
    }
  }

  /** Only one process can hold a begun retry: it went through the one state change that lets it in. */
  lemma HolderIsAlone(w: World, p: nat, ch: Change, q: nat)
    requires Inv(w) && p in w.procs && q in w.procs && q != p && Lawful(w.rows, w.procs[p], ch)
    requires w.procs[p].key == w.procs[q].key && Holding(w.procs[q].pc)
    ensures !Holding(ch.pc)
  {
    assert ProcOk(w, w.procs[p]) && ProcOk(w, w.procs[q]);
  }

  lemma WorkKeepsInv(w: World, p: nat, turn: Turn)
    requires Inv(w) && Enabled(w, Work(p, turn))
    ensures Inv(Exec(w, Work(p, turn)))
  {
    var x, ch := w.procs[p], Turned(w.rows, w.procs[p], turn);
    assert ProcOk(w, x) && KeyOk(w, x.key);
    TurnIsLawful(w.rows, x, turn);
    TurnKeeps(w.rows, x, turn, x.key in w.passed, HasTask(w, x.key), w.unsure[x.key] == 0);
    ChangeKeepsInv(w, p, ch);
  }

  lemma ApartKept(w: World, p: nat, ch: Change)
    requires Inv(w) && p in w.procs && Lawful(w.rows, w.procs[p], ch)
    requires ch.queues ==> Owns(RowsAfter(w.rows, w.procs[p].key, ch), w.procs[p].key, w.procs[p].token)
    ensures Apart(Worked(w, p, ch))
  {
    var x, w' := w.procs[p], Worked(w, p, ch);
    forall t | t in w'.tasks
      ensures t < w'.nextTask && Owns(w'.rows, w'.tasks[t].key, w'.tasks[t].token) && w'.tasks[t].key.source != COMMENT_SOURCE
    {
      TasksStayOwned(w, p, ch, t);
    }
    forall q | q in w.procs && q != p && w.procs[q].key == x.key && Holding(w.procs[q].pc) ensures !Holding(ch.pc) {
      HolderIsAlone(w, p, ch, q);
    }
  }

  lemma ChangeKeepsInv(w: World, p: nat, ch: Change)
    requires Inv(w) && p in w.procs && Lawful(w.rows, w.procs[p], ch)
    requires var x := w.procs[p]; AfterTurn(w.rows, x, ch, x.key in w.passed, HasTask(w, x.key), w.unsure[x.key] == 0)
    requires ch.queues ==> Owns(RowsAfter(w.rows, w.procs[p].key, ch), w.procs[p].key, w.procs[p].token)
    ensures Inv(Worked(w, p, ch))
  {
    var w' := Worked(w, p, ch);
    ApartKept(w, p, ch);
    ActorKept(w, p, ch);
    forall q | q in w'.procs && q != p ensures ProcOk(w', w'.procs[q]) {
      BystanderKept(w, p, ch, q);
    }
    forall k: EventKey | k.source != COMMENT_SOURCE ensures KeyOk(w', k) {
      assert KeyOk(w, k);
      WorkStaysHome(w, p, ch, k);
    }
  }

  /** What the outside may do to an event: add it, or move it out of PROCESSING. */
  predicate Nudged(rows: Rows, rows': Rows, k: EventKey) {
    && (k in rows ==> k in rows' && rows'[k].token == rows[k].token && rows'[k].privateReply == rows[k].privateReply
                      && (rows[k].Closed() ==> rows'[k].Closed()))
    && (k !in rows && k in rows' ==> rows'[k].privateReply.NotApplicable?)
  }

  ghost predicate Outside(w: World, w': World) {
    && (forall k: EventKey :: k.source != COMMENT_SOURCE ==> Nudged(w.rows, w'.rows, k))
    && (forall k: EventKey :: k !in w.rows && k in w'.rows && k.source != COMMENT_SOURCE ==> w.nextToken <= w'.rows[k].token < w'.nextToken)
    && w'.tasks == w.tasks && w'.nextTask == w.nextTask && w'.unsure == w.unsure && w'.passed == w.passed
    && w.nextToken <= w'.nextToken
  }

  lemma OutsideKeeps(w: World, w': World)
    requires Inv(w) && Outside(w, w')
    ensures forall k: EventKey :: k.source != COMMENT_SOURCE ==> KeyOk(w', k)
    ensures forall q :: q in w.procs ==> ProcOk(w', w.procs[q])
    ensures forall t :: t in w.tasks ==> Owns(w'.rows, w.tasks[t].key, w.tasks[t].token)
  {
    assert forall k: EventKey :: HasTask(w', k) <==> HasTask(w, k);
    forall k: EventKey | k.source != COMMENT_SOURCE ensures KeyOk(w', k) {
      assert KeyOk(w, k) && Nudged(w.rows, w'.rows, k);
    }
    forall q | q in w.procs ensures ProcOk(w', w.procs[q]) {
      var k := w.procs[q].key;
      assert ProcOk(w, w.procs[q]) && KeyOk(w, k) && Nudged(w.rows, w'.rows, k);
    }
    forall t | t in w.tasks ensures Owns(w'.rows, w.tasks[t].key, w.tasks[t].token) {
      assert Nudged(w.rows, w'.rows, w.tasks[t].key);
    }
  }

  /** mark_dead closes the event for every later claim, and touches neither its owner nor its reply. */
  lemma BuryingCloses(w: World, k: EventKey)
    ensures var w' := Exec(w, Bury(k));
            && w'.rows.Keys == w.rows.Keys && (forall j | j in w.rows && j != k :: w'.rows[j] == w.rows[j])
            && (k in w.rows ==> w'.rows[k] == w.rows[k].(status := Dead) && w'.rows[k].Closed())
            && w' == w.(rows := w'.rows)
  {
  }

  lemma IsOutside(w: World, a: Action)
    requires Inv(w) && Enabled(w, a) && !a.Work?
    ensures Outside(w, Exec(w, a))
  {
  }

  lemma ArrivalIsApart(w: World, a: Action)
    requires Apart(w) && Enabled(w, a) && a.Arrive? && forall q :: q in w.procs ==> w.procs[q].token < w.nextToken
    requires forall t :: t in w.tasks ==> Owns(Exec(w, a).rows, w.tasks[t].key, w.tasks[t].token)
    ensures Apart(Exec(w, a))
  {
  }

  lemma ArriveKeepsInv(w: World, a: Action)
    requires Inv(w) && Enabled(w, a) && a.Arrive?
    ensures Inv(Exec(w, a))
  {
    var w' := Exec(w, a);
    IsOutside(w, a);
    OutsideKeeps(w, w');
    assert forall q :: q in w.procs ==> ProcOk(w, w.procs[q]);
    ArrivalIsApart(w, a);
    assert KeyOk(w, a.k) && KeyOk(w', a.k);
    assert ProcOk(w', w'.procs[a.p]);
  }

  lemma RunRetryKeepsInv(w: World, a: Action)
    requires Inv(w) && Enabled(w, a) && a.RunRetry?
    ensures Inv(Exec(w, a))
  {
    var w' := Exec(w, a);
    IsOutside(w, a);
    OutsideKeeps(w, w');
    assert HasTask(w', w.tasks[a.t].key) && KeyOk(w, w.tasks[a.t].key);
    assert ProcOk(w', w'.procs[a.p]);
    assert Apart(w');
  }

  lemma OtherKeepsInv(w: World, a: Action)
    requires Inv(w) && Enabled(w, a) && !a.Work?
    ensures Inv(Exec(w, a))
  {
    if a.Arrive? { ArriveKeepsInv(w, a); }
    else if a.RunRetry? { RunRetryKeepsInv(w, a); }
    else {
      IsOutside(w, a);
      OutsideKeeps(w, Exec(w, a));
    }
  }

  lemma InvStep(w: World, a: Action)
    requires Inv(w) && Enabled(w, a)
    ensures Inv(Exec(w, a))
  {
    if a.Work? { WorkKeepsInv(w, a.p, a.turn); } else { OtherKeepsInv(w, a); }
  }

  // ── over whole runs ────────────────────────────────────────────────────────

  lemma InvInit()
    ensures Inv(Init())
  {
  }

  lemma {:induction false} InvRun(w: World, acts: seq<Action>, w': World)
    requires Inv(w) && Leads(w, acts, w')
    ensures Inv(w')
    decreases |acts|
  {
    if acts != [] {
      InvStep(w, acts[0]);
      InvRun(Exec(w, acts[0]), acts[1..], w');
    }
  }

  ghost predicate Reachable(w: World) {
    exists acts :: Leads(Init(), acts, w)
  }

  /** The log against the table: whatever may have arrived is counted, and nothing was tried after it. */
  ghost predicate LogOk(w: World) {
    && (forall i | 0 <= i < |w.attempts| :: w.attempts[i].0.source != COMMENT_SOURCE && w.attempts[i].0 in w.passed)
    && (forall i | 0 <= i < |w.attempts| && MayHaveArrived(w.attempts[i].1) :: w.unsure[w.attempts[i].0] > 0)
    && (forall i, j | 0 <= i < j < |w.attempts| && w.attempts[i].0 == w.attempts[j].0 :: !MayHaveArrived(w.attempts[i].1))
  }

  lemma LogStep(w: World, a: Action)
    requires Inv(w) && LogOk(w) && Enabled(w, a)
    ensures LogOk(Exec(w, a))
  {
    if a.Work? {
      TurnIsLawful(w.rows, w.procs[a.p], a.turn);
      LogTurn(w, a.p, Turned(w.rows, w.procs[a.p], a.turn));
    }
  }

  lemma LogTurn(w: World, p: nat, ch: Change)
    requires Inv(w) && LogOk(w) && p in w.procs && Lawful(w.rows, w.procs[p], ch)
    ensures LogOk(Worked(w, p, ch))
  {
    var w' := Worked(w, p, ch);
    assert ProcOk(w, w.procs[p]);
    if ch.sent.Some? {
      assert w.unsure[w.procs[p].key] == 0;
      assert HasTask(w, w.procs[p].key) ==> KeyOk(w, w.procs[p].key);
    }
    forall i, j | 0 <= i < j < |w'.attempts| && w'.attempts[i].0 == w'.attempts[j].0 ensures !MayHaveArrived(w'.attempts[i].1) {
      assert w'.attempts[i] == w.attempts[i];
    }
  }

  lemma {:induction false} LogRun(w: World, acts: seq<Action>, w': World)
    requires Inv(w) && LogOk(w) && Leads(w, acts, w')
    ensures LogOk(w')
    decreases |acts|
  {
    if acts != [] {
      InvStep(w, acts[0]);
      LogStep(w, acts[0]);
      LogRun(Exec(w, acts[0]), acts[1..], w');
    }
  }

  /** Over the whole life of a direct message, whatever is lost, crashes, expires or runs twice: once a
      reply may have arrived, none is tried any more; so at most one does.  At most one handler has its
      claim confirmed, and without that nothing is tried at all. */
  lemma AtMostOneUncertainReply(w: World, k: EventKey)
    requires Reachable(w) && k.source != COMMENT_SOURCE
    ensures forall i, j | 0 <= i < j < |w.attempts| && w.attempts[i].0 == w.attempts[j].0 == k :: !MayHaveArrived(w.attempts[i].1)
    ensures w.passed[k] <= 1
    ensures w.passed[k] == 0 ==> State(w.rows, k).NotApplicable? && forall i | 0 <= i < |w.attempts| :: w.attempts[i].0 != k
  {
    var acts :| Leads(Init(), acts, w);
    InvInit();
    InvRun(Init(), acts, w);
    LogRun(Init(), acts, w);
    assert KeyOk(w, k);
  }

  /** Whenever a reply is about to go out, none that may have arrived has gone out before. */
  lemma NeverSentTwice(w: World, p: nat)
    requires Reachable(w) && p in w.procs && Sending(w.procs[p].pc)
    ensures forall i | 0 <= i < |w.attempts| && w.attempts[i].0 == w.procs[p].key :: !MayHaveArrived(w.attempts[i].1)
    ensures Owns(w.rows, w.procs[p].key, w.procs[p].token)
    ensures forall q :: q in w.procs && q != p && w.procs[q].key == w.procs[p].key ==> !Sending(w.procs[q].pc)
  {
    var acts :| Leads(Init(), acts, w);
    InvInit();
    InvRun(Init(), acts, w);
    LogRun(Init(), acts, w);
    assert ProcOk(w, w.procs[p]);
    forall q | q in w.procs && q != p && w.procs[q].key == w.procs[p].key
      ensures !Sending(w.procs[q].pc)
    {
      Alone(w, p, q);
      Alone(w, q, p);
    }
  }

  // ── undisturbed executions ─────────────────────────────────────────────────

  ghost predicate Step(w: World, p: nat, turn: Turn, w': World) {
    p in w.procs && CanTurn(w.procs[p].pc, turn) && w' == Worked(w, p, Turned(w.rows, w.procs[p], turn))
  }

  /** The worlds a process passes through, turn by turn. */
  ghost predicate Trace(ws: seq<World>, p: nat, turns: seq<Turn>) {
    |ws| == |turns| + 1 && forall n | 0 <= n < |turns| :: Step(ws[n], p, turns[n], ws[n + 1])
  }

  lemma Extends(ws: seq<World>, p: nat, turns: seq<Turn>, turn: Turn, w': World)
    requires Trace(ws, p, turns) && Step(ws[|ws| - 1], p, turn, w')
    ensures Trace(ws + [w'], p, turns + [turn])
  {
  }

  /** Nobody but process `p`, which it starts, takes part in `acts`. */
  predicate OnlyBy(acts: seq<Action>, p: nat) {
    forall i | 0 <= i < |acts| :: (acts[i].Arrive? || acts[i].RunRetry? || acts[i].Work?) && acts[i].p == p
  }

  ghost predicate GetsTo(w: World, w': World, p: nat) {
    exists acts :: Leads(w, acts, w') && OnlyBy(acts, p)
  }

  lemma {:induction false} OneMore(w0: World, acts: seq<Action>, w: World, a: Action)
    requires Leads(w0, acts, w) && Enabled(w, a)
    ensures Leads(w0, acts + [a], Exec(w, a))
    decreases |acts|
  {
    if acts == [] {
      assert ([] + [a])[1..] == [];
      assert Leads(Exec(w, a), [], Exec(w, a));
    } else {
      OneMore(Exec(w0, acts[0]), acts[1..], w, a);
      assert (acts + [a])[1..] == acts[1..] + [a];
    }
  }

  lemma {:induction false} TraceGetsTo(w: World, ws: seq<World>, p: nat, turns: seq<Turn>, a: Action)
    requires (a.Arrive? || a.RunRetry?) && a.p == p && Enabled(w, a) && Trace(ws, p, turns) && ws[0] == Exec(w, a)
    ensures GetsTo(w, ws[|ws| - 1], p)
    decreases |turns|
  {
    var last, n := ws[|ws| - 1], |turns| - 1;
    if turns == [] {
      assert [a][1..] == [];
      assert Leads(last, [], last);
      assert Leads(w, [a], last) && OnlyBy([a], p);
    } else {
      TraceGetsTo(w, ws[..n + 1], p, turns[..n], a);
      var acts :| Leads(w, acts, ws[n]) && OnlyBy(acts, p);
      assert Step(ws[n], p, turns[n], last);
      OneMore(w, acts, ws[n], Work(p, turns[n]));
      assert OnlyBy(acts + [Work(p, turns[n])], p);
    }
  }

  predicate Refused(a: Attempt) { a.NotSent? || (a.Responded? && 400 <= a.status <= 499) }

  /** Where a reply leaves its event: DONE if it was accepted, open for a retry if it was refused, and
      otherwise UNKNOWN, for a person to look at. */
  function RowAfterReply(r: Row, a: Attempt): Row {
    if a.Responded? && a.status < 400 then r.(privateReply := Done)
    else if Refused(a) then r.(privateReply := Started)
    else r.(privateReply := Unknown, manualReview := true)
  }

  /** Process `p` moves on to `pc`, and its event to `row`. */
  function At(w: World, p: nat, pc: Pc, row: Row): World
    requires p in w.procs
  {
    w.(procs := w.procs[p := w.procs[p].(pc := pc)], rows := w.rows[w.procs[p].key := row])
  }

  predicate Here(w: World, p: nat) { p in w.procs && Owns(w.rows, w.procs[p].key, w.procs[p].token) }

  function RowAt(w: World, p: nat): Row
    requires Here(w, p)
  {
    w.rows[w.procs[p].key]
  }

  lemma Reads(w: World, p: nat, pc: Pc) returns (w': World)
    requires Here(w, p) && var st := RowAt(w, p).privateReply;
             || (w.procs[p].pc == TplRead && pc == TplBegin && st.NotApplicable?)
             || (w.procs[p].pc == AiRead && pc == AiBegin && st.NotApplicable?)
             || (w.procs[p].pc == RetryRead && pc == RetryBegin && (st.Started? || st.NotApplicable?))
    ensures Step(w, p, Read, w') && w' == At(w, p, pc, RowAt(w, p))
  {
    w' := Worked(w, p, Turned(w.rows, w.procs[p], Read));
    assert w.rows == w.rows[w.procs[p].key := RowAt(w, p)];
  }

  lemma Begins(w: World, p: nat, pc: Pc) returns (w': World)
    requires Here(w, p) && var st := RowAt(w, p).privateReply;
             || (w.procs[p].pc == TplBegin && pc == TplOut)
             || (w.procs[p].pc == AiBegin && pc == AiThink && st.NotApplicable?)
             || (w.procs[p].pc == RetryBegin && pc == RetryOut && (st.Started? || st.NotApplicable?))
    ensures Step(w, p, Begin, w')
    ensures w' == At(w, p, pc, RowAt(w, p).(privateReply := if pc.TplOut? then Started else EffectStatus.Sending))
  {
    w' := Worked(w, p, Turned(w.rows, w.procs[p], Begin));
  }

  function Sent(pc: Pc, a: Attempt): Pc
    requires Sending(pc)
  {
    if pc.TplOut? then TplAfter(OutcomeOf(a)) else if pc.AiOut? then AiAfter(OutcomeOf(a)) else RetryAfter(OutcomeOf(a))
  }

  lemma Sends(w: World, p: nat, a: Attempt) returns (w': World)
    requires Here(w, p) && Sending(w.procs[p].pc)
    ensures Step(w, p, Send(a), w')
    ensures w' == At(w, p, Sent(w.procs[p].pc, a), RowAt(w, p)).(attempts := w.attempts + [(w.procs[p].key, a)], unsure := w'.unsure)
  {
    w' := Worked(w, p, Turned(w.rows, w.procs[p], Send(a)));
    assert w.rows == w.rows[w.procs[p].key := RowAt(w, p)];
  }

  lemma Settles(w: World, p: nat, a: Attempt) returns (w': World)
    requires Here(w, p) && var pc := w.procs[p].pc;
             || (pc == TplAfter(OutcomeOf(a)) && !Refused(a))
             || ((pc == AiAfter(OutcomeOf(a)) || pc == RetryAfter(OutcomeOf(a))) && RowAt(w, p).privateReply.Sending?)
    ensures Step(w, p, Settle, w')
    ensures w' == At(w, p, if w.procs[p].pc.AiAfter? && Refused(a) then AiQueue else Over, RowAfterReply(RowAt(w, p), a))
  {
    w' := Worked(w, p, Turned(w.rows, w.procs[p], Settle));
  }

  lemma Queues(w: World, p: nat) returns (w': World)
    requires Here(w, p) && (w.procs[p].pc == TplAfter(DefiniteFailure) || w.procs[p].pc == AiQueue)
    ensures Step(w, p, Enqueue(true, true), w')
    ensures w' == At(w, p, Over, RowAt(w, p)).(tasks := w.tasks[w.nextTask := Task(w.procs[p].key, w.procs[p].token)], nextTask := w.nextTask + 1)
  {
    w' := Worked(w, p, Turned(w.rows, w.procs[p], Enqueue(true, true)));
    assert w.rows == w.rows[w.procs[p].key := RowAt(w, p)];
  }

  /** Both turns write the row, and the later word stands. */
  lemma RepliesWrite(rows: Rows, k: EventKey, r: Row, mid: Row, a: Attempt)
    requires mid == r.(privateReply := mid.privateReply)
    ensures rows[k := mid][k := RowAfterReply(mid, a)] == rows[k := RowAfterReply(r, a)]
  {
    assert RowAfterReply(mid, a) == RowAfterReply(r, a);
  }

  /** An execution of the retry task from the state change that lets it in. */
  lemma RetryReplies(w: World, p: nat, a: Attempt) returns (ws: seq<World>, turns: seq<Turn>)
    requires p in w.procs && w.procs[p].pc.RetryBegin?
    requires var x := w.procs[p]; Owns(w.rows, x.key, x.token) && (State(w.rows, x.key).Started? || State(w.rows, x.key).NotApplicable?)
    ensures Trace(ws, p, turns) && ws[0] == w
    ensures var k, w' := w.procs[p].key, ws[|ws| - 1];
            w'.rows == w.rows[k := RowAfterReply(w.rows[k], a)] && w'.attempts == w.attempts + [(k, a)] && w'.tasks == w.tasks
  {
    var k := w.procs[p].key;
    var w1 := Begins(w, p, RetryOut);
    var w2 := Sends(w1, p, a);
    var w3 := Settles(w2, p, a);
    RepliesWrite(w.rows, k, w.rows[k], w1.rows[k], a);
    assert w2.rows == w1.rows;
    ws, turns := [w, w1, w2, w3], [Begin, Send(a), Settle];
  }

  lemma RetryEnters(w: World, p: nat, t: nat) returns (w1: World, w2: World)
    requires p !in w.procs && t in w.tasks && Owns(w.rows, w.tasks[t].key, w.tasks[t].token)
    requires State(w.rows, w.tasks[t].key).Started? || State(w.rows, w.tasks[t].key).NotApplicable?
    ensures Enabled(w, RunRetry(p, t)) && w1 == Exec(w, RunRetry(p, t)) && Step(w1, p, Read, w2)
    ensures w2 == w.(procs := w.procs[p := Proc(w.tasks[t].key, w.tasks[t].token, true, RetryBegin)])
  {
    w1 := Exec(w, RunRetry(p, t));
    assert w1 == w.(procs := w.procs[p := Proc(w.tasks[t].key, w.tasks[t].token, true, RetryRead)]);
    w2 := Reads(w1, p, RetryBegin);
    assert w2.procs == w.procs[p := w2.procs[p]] && w2.rows == w.rows;
  }

  lemma Continues(w1: World, p: nat, turn: Turn, ws: seq<World>, turns: seq<Turn>)
    requires Trace(ws, p, turns) && Step(w1, p, turn, ws[0])
    ensures Trace([w1] + ws, p, [turn] + turns) && ([w1] + ws)[0] == w1 && ([w1] + ws)[|ws|] == ws[|ws| - 1]
  {
    var all, done := [w1] + ws, [turn] + turns;
    forall n | 0 <= n < |done| ensures Step(all[n], p, done[n], all[n + 1]) {
      if n > 0 {
        assert Step(ws[n - 1], p, turns[n - 1], ws[n]);
      }
    }
  }

  /** As long as every reply of an event failed for certain, one undisturbed execution of its retry task
      sends: an accepted reply ends it DONE, a refused one leaves it to the next execution, and anything
      else ends it UNKNOWN, for a person to look at. */
  lemma RetryGetsThrough(w: World, p: nat, t: nat, a: Attempt) returns (w': World)
    requires Reachable(w) && p !in w.procs && t in w.tasks
    requires State(w.rows, w.tasks[t].key).Started? || State(w.rows, w.tasks[t].key).NotApplicable?
    ensures GetsTo(w, w', p) && w'.attempts == w.attempts + [(w.tasks[t].key, a)] && w'.tasks == w.tasks
    ensures w.tasks[t].key in w.rows && w'.rows == w.rows[w.tasks[t].key := RowAfterReply(w.rows[w.tasks[t].key], a)]
  {
    ReachableKeeps(w);
    var w1, w2 := RetryEnters(w, p, t);
    var ws, turns := RetryReplies(w2, p, a);
    Continues(w1, p, Read, ws, turns);
    w' := ws[|ws| - 1];
    TraceGetsTo(w, [w1] + ws, p, [Read] + turns, RunRetry(p, t));
  }

  /** An execution that finds the event settled, or held by another, does nothing. */
  lemma RetryStandsBack(w: World, p: nat, t: nat) returns (w': World)
    requires Reachable(w) && p !in w.procs && t in w.tasks
    requires var st := State(w.rows, w.tasks[t].key); st.Done? || st.Unknown? || st.Sending?
    ensures GetsTo(w, w', p) && w'.rows == w.rows && w'.attempts == w.attempts && w'.tasks == w.tasks && p in w'.procs && w'.procs[p].pc.Over?
  {
    var w1 := Exec(w, RunRetry(p, t));
    assert w1.procs[p].pc.RetryRead?;
    w' := Worked(w1, p, Turned(w1.rows, w1.procs[p], Read));
    assert Step(w1, p, Read, w');
    TraceGetsTo(w, [w1, w'], p, [Read], RunRetry(p, t));
  }

  // ── and the first reply ────────────────────────────────────────────────────

  lemma ComesIn(w: World, p: nat, k: EventKey, owner: string) returns (w': World)
    requires p !in w.procs && k.source != COMMENT_SOURCE
    ensures Enabled(w, Arrive(p, k, owner)) && w' == Exec(w, Arrive(p, k, owner))
    ensures w' == w.(procs := w'.procs, rows := w'.rows, nextToken := w.nextToken + 1)
    ensures w'.procs == w.procs[p := Proc(k, w.nextToken, false, if k in w.rows then Lost(w.clock, w.clock + LEASE_SECONDS) else Storing)]
    ensures w'.rows == if k in w.rows then w.rows else w.rows[k := NewRow(Processing, w.nextToken, owner, w.clock + LEASE_SECONDS, Untagged)]
  {
    w' := Exec(w, Arrive(p, k, owner));
  }

  lemma Stores(w: World, p: nat, ok: bool) returns (w': World)
    requires p in w.procs && w.procs[p].pc.Storing?
    ensures Step(w, p, Store(ok), w') && w' == w.(procs := w.procs[p := w.procs[p].(pc := Completing(ok))])
  {
    w' := Worked(w, p, Turned(w.rows, w.procs[p], Store(ok)));
  }

  lemma Completes(w: World, p: nat) returns (w': World)
    requires Here(w, p) && w.procs[p].pc.Completing?
    ensures Step(w, p, Complete, w')
    ensures var reply := w.procs[p].pc.reply;
            w' == At(w, p, if reply then Deciding else Over, RowAt(w, p).(airtable := Recorded, status := Completed))
                  .(passed := if reply then w.passed + multiset{w.procs[p].key} else w.passed)
  {
    w' := Worked(w, p, Turned(w.rows, w.procs[p], Complete));
  }

  lemma Chooses(w: World, p: nat, reply: Pc) returns (w': World)
    requires Here(w, p) && w.procs[p].pc.Deciding? && (reply.TplRead? || reply.AiRead?)
    ensures Step(w, p, Choose(reply), w') && w' == At(w, p, reply, RowAt(w, p))
  {
    w' := Worked(w, p, Turned(w.rows, w.procs[p], Choose(reply)));
    assert w.rows == w.rows[w.procs[p].key := RowAt(w, p)];
  }

  lemma Thinks(w: World, p: nat) returns (w': World)
    requires Here(w, p) && w.procs[p].pc.AiThink?
    ensures Step(w, p, Think(true), w') && w' == At(w, p, AiOut, RowAt(w, p))
  {
    w' := Worked(w, p, Turned(w.rows, w.procs[p], Think(true)));
    assert w.rows == w.rows[w.procs[p].key := RowAt(w, p)];
  }

  /** A message that is new: claimed, recorded, and its claim confirmed. */
  lemma IsReceived(w: World, p: nat, k: EventKey, owner: string, ok: bool) returns (ws: seq<World>, turns: seq<Turn>)
    requires p !in w.procs && k.source != COMMENT_SOURCE && k !in w.rows
    ensures Enabled(w, Arrive(p, k, owner)) && Trace(ws, p, turns) && ws[0] == Exec(w, Arrive(p, k, owner))
    ensures var w' := ws[|ws| - 1];
            && w'.procs == w.procs[p := Proc(k, w.nextToken, false, if ok then Deciding else Over)]
            && w'.rows == w.rows[k := NewRow(Completed, w.nextToken, owner, w.clock + LEASE_SECONDS, Untagged).(airtable := Recorded)]
            && w'.attempts == w.attempts && w'.tasks == w.tasks && w'.nextTask == w.nextTask && (!ok ==> w'.passed == w.passed)
  {
    var w1 := ComesIn(w, p, k, owner);
    var w2 := Stores(w1, p, ok);
    var w3 := Completes(w2, p);
    assert w3.procs == w.procs[p := w3.procs[p]] && w3.rows == w.rows[k := w3.rows[k]];
    ws, turns := [w1, w2, w3], [Store(ok), Complete];
  }

  /** The rest of either reply path, from the confirmed claim on. */
  ghost predicate Replied(w: World, w': World, p: nat, a: Attempt)
    requires p in w.procs && w.procs[p].key in w.rows
  {
    var k, t := w.procs[p].key, w.procs[p].token;
    && w'.rows == w.rows[k := RowAfterReply(w.rows[k], a)] && w'.attempts == w.attempts + [(k, a)]
    && w'.tasks == if Refused(a) then w.tasks[w.nextTask := Task(k, t)] else w.tasks
  }

  ghost predicate AtDecision(w: World, p: nat) {
    && p in w.procs && w.procs[p].pc.Deciding? && Owns(w.rows, w.procs[p].key, w.procs[p].token)
    && State(w.rows, w.procs[p].key).NotApplicable?
  }

  lemma TemplateEnds(w: World, p: nat, a: Attempt) returns (w': World)
    requires Here(w, p) && w.procs[p].pc == TplAfter(OutcomeOf(a)) && RowAt(w, p).privateReply.Started?
    ensures Step(w, p, if Refused(a) then Enqueue(true, true) else Settle, w')
    ensures w'.rows == w.rows[w.procs[p].key := RowAfterReply(RowAt(w, p), a)] && w'.attempts == w.attempts
    ensures w'.tasks == if Refused(a) then w.tasks[w.nextTask := Task(w.procs[p].key, w.procs[p].token)] else w.tasks
  {
    if Refused(a) { w' := Queues(w, p); } else { w' := Settles(w, p, a); }
  }

  lemma TemplateBegins(w: World, p: nat) returns (ws: seq<World>, turns: seq<Turn>)
    requires AtDecision(w, p)
    ensures Trace(ws, p, turns) && ws[0] == w
    ensures var x, k, w' := w.procs[p], w.procs[p].key, ws[|ws| - 1];
            && w'.procs == w.procs[p := x.(pc := TplOut)] && w'.rows == w.rows[k := w.rows[k].(privateReply := Started)]
            && w' == w.(procs := w'.procs, rows := w'.rows)
  {
    var k := w.procs[p].key;
    var w1 := Chooses(w, p, TplRead);
    var w2 := Reads(w1, p, TplBegin);
    var w3 := Begins(w2, p, TplOut);
    assert w3.procs == w.procs[p := w3.procs[p]] && w3.rows == w.rows[k := w3.rows[k]];
    ws, turns := [w, w1, w2, w3], [Choose(TplRead), Read, Begin];
  }

  lemma TemplateReplies(w: World, p: nat, a: Attempt) returns (ws: seq<World>, turns: seq<Turn>)
    requires AtDecision(w, p)
    ensures Trace(ws, p, turns) && ws[0] == w && Replied(w, ws[|ws| - 1], p, a)
  {
    var k := w.procs[p].key;
    var w3;
    ws, turns := TemplateBegins(w, p);
    w3 := ws[|ws| - 1];
    var w4 := Sends(w3, p, a);
    Extends(ws, p, turns, Send(a), w4);
    RepliesWrite(w.rows, k, w.rows[k], w3.rows[k], a);
    assert w4.rows == w3.rows;
    var w5 := TemplateEnds(w4, p, a);
    var last := if Refused(a) then Enqueue(true, true) else Settle;
    Extends(ws + [w4], p, turns + [Send(a)], last, w5);
    ws, turns := ws + [w4] + [w5], turns + [Send(a)] + [last];
  }

  lemma AiBegins(w: World, p: nat) returns (ws: seq<World>, turns: seq<Turn>)
    requires AtDecision(w, p)
    ensures Trace(ws, p, turns) && ws[0] == w
    ensures var x, k, w' := w.procs[p], w.procs[p].key, ws[|ws| - 1];
            && w'.procs == w.procs[p := x.(pc := AiThink)] && w'.rows == w.rows[k := w.rows[k].With(PrivateReply, EffectStatus.Sending)]
            && w' == w.(procs := w'.procs, rows := w'.rows)
  {
    var k := w.procs[p].key;
    var w1 := Chooses(w, p, AiRead);
    var w2 := Reads(w1, p, AiBegin);
    var w3 := Begins(w2, p, AiThink);
    assert w3.procs == w.procs[p := w3.procs[p]] && w3.rows == w.rows[k := w3.rows[k]];
    ws, turns := [w, w1, w2, w3], [Choose(AiRead), Read, Begin];
  }

  lemma AiSends(w: World, p: nat, a: Attempt) returns (ws: seq<World>, turns: seq<Turn>)
    requires p in w.procs && w.procs[p].pc.AiThink? && Owns(w.rows, w.procs[p].key, w.procs[p].token) && State(w.rows, w.procs[p].key).Sending?
    ensures Trace(ws, p, turns) && ws[0] == w && Replied(w, ws[|ws| - 1], p, a)
  {
    var w1 := Thinks(w, p);
    var w2 := Sends(w1, p, a);
    var w3 := Settles(w2, p, a);
    assert w2.rows == w.rows && w3.rows == w.rows[w.procs[p].key := RowAfterReply(RowAt(w, p), a)];
    ws, turns := [w, w1, w2, w3], [Think(true), Send(a), Settle];
    if Refused(a) {
      var w4 := Queues(w3, p);
      assert w4.rows == w3.rows;
      ws, turns := [w, w1, w2, w3, w4], [Think(true), Send(a), Settle, Enqueue(true, true)];
    }
  }

  lemma Joins(a: seq<World>, s: seq<Turn>, b: seq<World>, t: seq<Turn>, p: nat)
    requires Trace(a, p, s) && Trace(b, p, t) && b[0] == a[|a| - 1]
    ensures Trace(a + b[1..], p, s + t) && (a + b[1..])[0] == a[0] && (a + b[1..])[|a| + |b| - 2] == b[|b| - 1]
  {
    var all, done := a + b[1..], s + t;
    forall n | 0 <= n < |done| ensures Step(all[n], p, done[n], all[n + 1]) {
      if n >= |s| {
        var m := n - |s|;
        assert Step(b[m], p, t[m], b[m + 1]) && all[n] == b[m] && all[n + 1] == b[m + 1];
      }
    }
  }

  /** A new message is replied to on either path: it is recorded and closed, the reply is tried once, and
      the event ends DONE if it was accepted, UNKNOWN and flagged if nobody knows, and open with a retry
      task, and only then with one, if it was refused. */
  lemma FirstReplyGoesOut(w: World, p: nat, k: EventKey, owner: string, ai: bool, a: Attempt) returns (w': World)
    requires p !in w.procs && k.source != COMMENT_SOURCE && k !in w.rows
    ensures GetsTo(w, w', p) && w'.attempts == w.attempts + [(k, a)]
    ensures w'.rows == w.rows[k := RowAfterReply(NewRow(Completed, w.nextToken, owner, w.clock + 60, Untagged).(airtable := Recorded), a)]
    ensures w'.tasks == if Refused(a) then w.tasks[w.nextTask := Task(k, w.nextToken)] else w.tasks
  {
    var ws, turns := IsReceived(w, p, k, owner, true);
    var w1 := ws[|ws| - 1];
    var more, rest := Path(w1, p, ai, a);
    Joins(ws, turns, more, rest, p);
    w' := more[|more| - 1];
    TraceGetsTo(w, ws + more[1..], p, turns + rest, Arrive(p, k, owner));
    assert w'.rows == w.rows[k := RowAfterReply(w1.rows[k], a)];
  }

  lemma Path(w: World, p: nat, ai: bool, a: Attempt) returns (ws: seq<World>, turns: seq<Turn>)
    requires AtDecision(w, p)
    ensures Trace(ws, p, turns) && ws[0] == w && Replied(w, ws[|ws| - 1], p, a)
  {
    if ai {
      ws, turns := AiBegins(w, p);
      var w1 := ws[|ws| - 1];
      var more, rest := AiSends(w1, p, a);
      Joins(ws, turns, more, rest, p);
      ws, turns := ws + more[1..], turns + rest;
      assert ws[|ws| - 1].rows == w.rows[w.procs[p].key := RowAfterReply(w1.rows[w.procs[p].key], a)];
    } else {
      ws, turns := TemplateReplies(w, p, a);
    }
  }

  // ── what goes wrong on the way ─────────────────────────────────────────────

  /** Who goes on after reading the event: a template reply unless one was begun or is settled, an AI reply
      only where nothing was begun at all, a retry only while it owns the event and it is open. */
  predicate GoesOn(rows: Rows, x: Proc) {
    var st := if x.key in rows then rows[x.key].privateReply else NotApplicable;
    if x.pc.TplRead? then st.NotApplicable? || st.Sending?
    else if x.pc.AiRead? then st.NotApplicable?
    else x.key in rows && rows[x.key].token == x.token && (st.NotApplicable? || st.Started?)
  }

  lemma ReadingDecides(w: World, p: nat)
    requires p in w.procs && (w.procs[p].pc.TplRead? || w.procs[p].pc.AiRead? || w.procs[p].pc.RetryRead?)
    ensures var x, w' := w.procs[p], Exec(w, Work(p, Read));
            && w'.procs[p].pc == (if !GoesOn(w.rows, x) then Over else if x.pc.TplRead? then TplBegin else if x.pc.AiRead? then AiBegin else RetryBegin)
            && w'.rows == w.rows && w'.attempts == w.attempts && w'.tasks == w.tasks
  {
  }

  function Doubtful(r: Row): Row { r.(privateReply := Unknown, manualReview := true) }

  lemma GivesUp(w: World, p: nat) returns (w': World)
    requires Here(w, p) && w.procs[p].pc.AiGiveUp?
    ensures Step(w, p, Settle, w') && w' == At(w, p, Over, Doubtful(RowAt(w, p)))
  {
    w' := Worked(w, p, Turned(w.rows, w.procs[p], Settle));
  }

  lemma Fumbles(w: World, p: nat, applied: bool) returns (w': World)
    requires Here(w, p) && (w.procs[p].pc.AiThink? || w.procs[p].pc.AiAfter?)
    ensures Step(w, p, Fumble(applied), w') && Here(w', p) && w'.procs == w.procs[p := w.procs[p].(pc := AiGiveUp)]
    ensures w'.rows == w.rows[w.procs[p].key := RowAt(w', p)] && Doubtful(RowAt(w', p)) == Doubtful(RowAt(w, p))
    ensures w'.attempts == w.attempts && w'.tasks == w.tasks
    ensures RowAt(w', p).privateReply ==
              if !applied then RowAt(w, p).privateReply
              else if w.procs[p].pc.AiAfter? && w.procs[p].pc.o.Delivered? then Done
              else if (w.procs[p].pc.AiThink? || w.procs[p].pc.o.DefiniteFailure?) && RowAt(w, p).privateReply.Sending? then Started
              else RowAt(w, p).privateReply
  {
    w' := Worked(w, p, Turned(w.rows, w.procs[p], Fumble(applied)));
    assert w.rows == w.rows[w.procs[p].key := RowAt(w, p)];
  }

  /** Whatever raises inside the AI path, before the request or after its answer, and whether or not the
      write at hand took effect: the event ends UNKNOWN, for a person to look at, and no retry is queued. */
  lemma AiFumbleEndsUnknown(w: World, p: nat, applied: bool) returns (w1: World, w': World)
    requires Here(w, p) && (w.procs[p].pc.AiThink? || w.procs[p].pc.AiAfter?)
    ensures Step(w, p, Fumble(applied), w1) && Step(w1, p, Settle, w')
    ensures w'.rows == w.rows[w.procs[p].key := Doubtful(RowAt(w, p))] && w'.tasks == w.tasks && w'.attempts == w.attempts
    ensures w'.procs[p].pc.Over?
  {
    w1 := Fumbles(w, p, applied);
    w' := GivesUp(w1, p);
  }

  /** A refused AI reply that cannot be queued ends UNKNOWN too, so that none is open without a task. */
  lemma AiUnqueuedEndsUnknown(w: World, p: nat, landed: bool) returns (w1: World, w': World)
    requires Here(w, p) && w.procs[p].pc.AiQueue?
    ensures Step(w, p, Enqueue(false, landed), w1) && Step(w1, p, Settle, w')
    ensures w'.rows == w.rows[w.procs[p].key := Doubtful(RowAt(w, p))] && w'.attempts == w.attempts && w'.procs[p].pc.Over?
    ensures w'.tasks == if landed then w.tasks[w.nextTask := Task(w.procs[p].key, w.procs[p].token)] else w.tasks
  {
    w1 := Worked(w, p, Turned(w.rows, w.procs[p], Enqueue(false, landed)));
    assert w1.procs[p] == w.procs[p].(pc := AiGiveUp) && w1.rows == w.rows;
    w' := GivesUp(w1, p);
  }

  /** An AI with nothing to say sends nothing, queues nothing, and leaves the event as begun. */
  lemma AiHasNothingToSay(w: World, p: nat) returns (w': World)
    requires Here(w, p) && w.procs[p].pc.AiThink? && RowAt(w, p).privateReply.Sending?
    ensures Step(w, p, Think(false), w') && w' == At(w, p, Over, RowAt(w, p).(privateReply := Started))
  {
    w' := Worked(w, p, Turned(w.rows, w.procs[p], Think(false)));
  }

  /** A refused template reply that cannot be queued stays open. */
  lemma TemplateUnqueuedStaysOpen(w: World, p: nat, landed: bool) returns (w': World)
    requires Here(w, p) && w.procs[p].pc == TplAfter(DefiniteFailure)
    ensures Step(w, p, Enqueue(false, landed), w') && w'.rows == w.rows && w'.attempts == w.attempts && w'.procs[p].pc.Over?
    ensures w'.tasks == if landed then w.tasks[w.nextTask := Task(w.procs[p].key, w.procs[p].token)] else w.tasks
  {
    w' := Worked(w, p, Turned(w.rows, w.procs[p], Enqueue(false, landed)));
  }

  /** A message that is there already, and not for the taking, is dropped. */
  lemma ADuplicateIsDropped(w: World, p: nat, k: EventKey, owner: string) returns (w': World)
    requires p !in w.procs && k.source != COMMENT_SOURCE && k in w.rows && !w.rows[k].Stale(w.clock)
    ensures GetsTo(w, w', p) && w'.rows == w.rows && w'.attempts == w.attempts && w'.tasks == w.tasks && p in w'.procs && w'.procs[p].pc.Over?
  {
    var w1 := ComesIn(w, p, k, owner);
    w' := Worked(w1, p, Turned(w1.rows, w1.procs[p], TakeOver(owner)));
    assert Step(w1, p, TakeOver(owner), w');
    TraceGetsTo(w, [w1, w'], p, [TakeOver(owner)], Arrive(p, k, owner));
  }

  /** A message that could not be recorded is left to the queue that records it, and not replied to. */
  lemma UnrecordedIsNotAnswered(w: World, p: nat, k: EventKey, owner: string) returns (w': World)
    requires p !in w.procs && k.source != COMMENT_SOURCE && k !in w.rows
    ensures GetsTo(w, w', p) && w'.attempts == w.attempts && w'.tasks == w.tasks && w'.passed == w.passed
    ensures p in w'.procs && w'.procs[p].pc.Over? && k in w'.rows && w'.rows[k].Closed()
  {
    var ws, turns := IsReceived(w, p, k, owner, false);
    w' := ws[|ws| - 1];
    TraceGetsTo(w, ws, p, turns, Arrive(p, k, owner));
  }

  lemma ReachableKeeps(w: World)
    requires Reachable(w)
    ensures Inv(w)
  {
    var acts :| Leads(Init(), acts, w);
    InvInit();
    InvRun(Init(), acts, w);
  }
}
