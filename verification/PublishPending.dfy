/** From claim to verdict: the publishing jobs of launcher/main.py, the ledger of unsettled outcomes
    they leave behind, and the reconciler that settles them later, all interleaved step by step.

    A claim is a blind PATCH in the source, safe for a single worker only: here a post is claimed while
    it is ready and no live job holds it.  Clock readings never go back. */
module PublishPending {
  import opened Wrappers

  type Rid = string

  datatype PostStatus = Ready | Uploading | Posted | Rejected | Elsewhere
  datatype Kind = OutcomeUnknown | PostedUnrecorded | FailedUnrecorded | InFlight
  datatype Entry = Entry(kind: Kind, creationId: string, mediaId: string, at: nat, alerted: bool)

  const MIN_AGE := 30 * 60

  datatype Outcome = Succeeded(mediaId: string) | Refused | Unclear(creationId: string)

  datatype JobPc =
    | Publishing
    | Ended(o: Outcome)
    | Marked(o: Outcome)         // the result is in Airtable
    | Cleared(o: Outcome)        // carousel: and the in_flight entry was dropped
    | Unrecorded(o: Outcome)     // it could not be written
    | Over
    | Lapsed                     // died, or could not even write the ledger

  /** `outcome`: how its publishing run ended; `confided`: whether it wrote an in_flight entry. */
  datatype Job = Job(rid: Rid, carousel: bool, pc: JobPc, outcome: Option<Outcome>, confided: bool)

  datatype Decision = ToPosted | ToFailed | Hold

  datatype RoundPc = Idle | Judged(rid: Rid, d: Decision) | Confirmed(rid: Rid, d: Decision) | Closed

  datatype Round = Round(
    start: nat,
    snapshot: map<Rid, Entry>,
    resolved: map<Rid, Entry>,
    alerts: map<Rid, Entry>,
    pc: RoundPc)

  datatype World = World(
    status: map<Rid, PostStatus>,
    ledger: map<Rid, Entry>,
    clock: nat,
    jobs: map<nat, Job>,
    holder: map<Rid, nat>,         // the job that claimed the post last
    left: map<Rid, Entry>,         // entries the last claim found there, as far as no round removed them
    rounds: map<nat, Round>,
    runs: multiset<Rid>,           // publishing runs started
    releases: multiset<Rid>)       // times a post was made ready

  function Init(): World { World(map[], map[], 0, map[], map[], map[], map[], multiset{}, multiset{}) }

  datatype JobTurn =
    | Confide(creationId: string, ok: bool)    // on_parent_created
    | End(o: Outcome)
    | Mark
    | MarkRaises(landed: bool)
    | Clear(ok: bool)                          // carousel: drop the in_flight entry
    | Trip                                     // an exception after the result was written
    | Finish
    | Put(ok: bool)
    | Crash

  datatype RoundTurn =
    | Judge(rid: Rid, d: Decision)
    | Fetch(agrees: bool)                      // lookup works and the account is the recorded one
    | Settle
    | SettleRaises(landed: bool)
    | Apply(ok: bool)

  datatype Action =
    | Tick(seconds: nat)
    | Outside(rid: Rid, s: PostStatus)         // people, and the rest of the system
    | Claim(p: nat, rid: Rid, carousel: bool)
    | ClaimRaises(p: nat, rid: Rid)            // the PATCH landed, its answer did not
    | Work(p: nat, turn: JobTurn)
    | Open(q: nat)
    | Reconcile(q: nat, step: RoundTurn)

  predicate Live(pc: JobPc) { !pc.Over? && !pc.Lapsed? }

  function StatusOf(o: Outcome): PostStatus { if o.Succeeded? then Posted else Rejected }

  predicate CanTurn(x: Job, turn: JobTurn) {
    match turn
    case Confide(_, _) => x.pc.Publishing? && x.carousel
    case End(_) => x.pc.Publishing?
    case Mark => x.pc.Ended? && !x.pc.o.Unclear?
    case MarkRaises(_) => x.pc.Ended? && !x.pc.o.Unclear?
    case Clear(_) => x.pc.Marked? && x.carousel
    case Trip => x.pc.Marked? || x.pc.Cleared?
    case Finish => (x.pc.Marked? && !x.carousel) || x.pc.Cleared?
    case Put(_) => x.pc.Unrecorded? || (x.pc.Ended? && x.pc.o.Unclear?)
    case Crash => Live(x.pc)
  }

  function Clue(o: Outcome, now: nat): Entry {
    match o
    case Unclear(c) => Entry(OutcomeUnknown, c, "", now, false)
    case Succeeded(m) => Entry(PostedUnrecorded, "", m, now, false)
    case Refused => Entry(FailedUnrecorded, "", "", now, false)
  }

  /** What a turn does: the job after it, what it writes to the post, what it does to the post's entry. */
  datatype EntryOp = Leave | Enter(e: Entry) | Drop
  datatype Change = Change(x: Job, status: Option<PostStatus>, op: EntryOp)

  function Moved(x: Job, pc: JobPc): Change { Change(x.(pc := pc), None, Leave) }

  function RunEnds(x: Job, o: Outcome): Change { Change(x.(pc := Ended(o), outcome := Some(o)), None, Leave) }

  function Turned(x: Job, turn: JobTurn, now: nat): Change
    requires CanTurn(x, turn)
  {
    match turn
    case Confide(c, ok) =>
      if ok then Change(x.(confided := true), None, Enter(Entry(InFlight, c, "", now, false))) else RunEnds(x, Refused)
    case End(o) => RunEnds(x, o)
    case Mark => Moved(x, Marked(x.pc.o)).(status := Some(StatusOf(x.pc.o)))
    case MarkRaises(landed) => Moved(x, Unrecorded(x.pc.o)).(status := if landed then Some(StatusOf(x.pc.o)) else None)
    case Clear(ok) => Moved(x, Cleared(x.pc.o)).(op := if ok then Drop else Leave)
    case Trip => Moved(x, Unrecorded(x.pc.o))
    case Finish => Moved(x, Over)
    case Put(ok) => if ok then Moved(x, Over).(op := Enter(Clue(x.pc.o, now))) else Moved(x, Lapsed)
    case Crash => Moved(x, Lapsed)
  }

  function Changed(w: World, p: nat, ch: Change): World
    requires p in w.jobs
  {
    var rid := w.jobs[p].rid;
    w.(jobs := w.jobs[p := ch.x],
       status := if ch.status.Some? then w.status[rid := ch.status.value] else w.status,
       ledger := match ch.op
                 case Leave => w.ledger
                 case Enter(e) => w.ledger[rid := e]
                 case Drop => w.ledger - {rid})
  }

  function Worked(w: World, p: nat, turn: JobTurn): World
    requires p in w.jobs && CanTurn(w.jobs[p], turn)
  {
    Changed(w, p, Turned(w.jobs[p], turn, w.clock))
  }

  /** _reconcile_decide: what the evidence in an entry allows; a lookup may always end in Hold. */
  predicate Allows(e: Entry, d: Decision) {
    match e.kind
    case PostedUnrecorded => if e.mediaId != "" then d.ToPosted? else d.Hold?
    case FailedUnrecorded => d.ToFailed?
    case _ => d.Hold? || (d.ToFailed? && e.creationId != "")
  }

  predicate Aged(e: Entry, now: nat) { e.at + MIN_AGE <= now }

  predicate CanReconcile(r: Round, turn: RoundTurn) {
    match turn
    case Judge(rid, d) => r.pc.Idle? && rid in r.snapshot && Aged(r.snapshot[rid], r.start) && Allows(r.snapshot[rid], d)
    case Fetch(_) => r.pc.Judged? && r.pc.rid in r.snapshot
    case Settle => r.pc.Confirmed? && r.pc.rid in r.snapshot
    case SettleRaises(_) => r.pc.Confirmed? && r.pc.rid in r.snapshot
    case Apply(_) => r.pc.Idle?
  }

  function Held(r: Round, rid: Rid): Round
    requires rid in r.snapshot
  {
    r.(pc := Idle, alerts := if r.snapshot[rid].alerted then r.alerts else r.alerts[rid := r.snapshot[rid]])
  }

  predicate SeenIn(seen: map<Rid, Entry>, ledger: map<Rid, Entry>, rid: Rid) {
    rid in ledger && rid in seen && seen[rid] == ledger[rid]
  }

  /** The update of the ledger at the end of a round. */
  function Applied(ledger: map<Rid, Entry>, resolved: map<Rid, Entry>, alerts: map<Rid, Entry>): map<Rid, Entry> {
    map rid | rid in ledger && !SeenIn(resolved, ledger, rid) ::
      if SeenIn(alerts, ledger, rid) then ledger[rid].(alerted := true) else ledger[rid]
  }

  function Verdict(d: Decision): PostStatus { if d.ToPosted? then Posted else Rejected }

  /** What a step of a round does: the round after it, the verdict it writes, whether it updates the ledger. */
  datatype RoundChange = RoundChange(r: Round, verdict: Option<PostStatus>, applies: bool)

  function Turns(r: Round): RoundChange { RoundChange(r, None, false) }

  function Stepped(status: map<Rid, PostStatus>, r: Round, turn: RoundTurn): RoundChange
    requires CanReconcile(r, turn)
  {
    match turn
    case Judge(rid, d) => Turns(if d.Hold? then Held(r, rid) else r.(pc := Judged(rid, d)))
    case Fetch(agrees) =>
      if agrees && r.pc.rid in status && status[r.pc.rid].Uploading?
      then Turns(r.(pc := Confirmed(r.pc.rid, r.pc.d)))
      else Turns(Held(r, r.pc.rid))
    case Settle =>
      Turns(r.(pc := Idle, resolved := r.resolved[r.pc.rid := r.snapshot[r.pc.rid]])).(verdict := Some(Verdict(r.pc.d)))
    case SettleRaises(landed) => Turns(r.(pc := Idle)).(verdict := if landed then Some(Verdict(r.pc.d)) else None)
    case Apply(ok) => Turns(r.(pc := Closed)).(applies := ok)
  }

  function RoundChanged(w: World, q: nat, ch: RoundChange): World
    requires q in w.rounds
  {
    var r := w.rounds[q];
    w.(rounds := w.rounds[q := ch.r],
       status := if ch.verdict.Some? && r.pc.Confirmed? then w.status[r.pc.rid := ch.verdict.value] else w.status,
       ledger := if ch.applies then Applied(w.ledger, r.resolved, r.alerts) else w.ledger,
       left := if ch.applies then Applied(w.left, r.resolved, r.alerts) else w.left)
  }

  function Reconciled(w: World, q: nat, turn: RoundTurn): World
    requires q in w.rounds && CanReconcile(w.rounds[q], turn)
  {
    RoundChanged(w, q, Stepped(w.status, w.rounds[q], turn))
  }

  ghost predicate Enabled(w: World, a: Action) {
    match a
    case Tick(_) => true
    case Outside(_, s) => !s.Uploading?
    case Claim(p, rid, _) => CanClaim(w, p, rid)
    case ClaimRaises(p, rid) => CanClaim(w, p, rid)
    case Work(p, turn) => p in w.jobs && CanTurn(w.jobs[p], turn)
    case Open(q) => q !in w.rounds
    case Reconcile(q, turn) => q in w.rounds && CanReconcile(w.rounds[q], turn)
  }

  ghost predicate CanClaim(w: World, p: nat, rid: Rid) {
    && p !in w.jobs && rid in w.status && w.status[rid].Ready?
    && forall q :: q in w.jobs && w.jobs[q].rid == rid ==> !Live(w.jobs[q].pc)
  }

  function Claimed(w: World, p: nat, rid: Rid, carousel: bool, pc: JobPc): World {
    w.(status := w.status[rid := Uploading], jobs := w.jobs[p := Job(rid, carousel, pc, None, false)], holder := w.holder[rid := p],
       left := if rid in w.ledger then w.left[rid := w.ledger[rid]] else w.left - {rid})
  }

  ghost function Exec(w: World, a: Action): World
    requires Enabled(w, a)
  {
    match a
    case Tick(d) => w.(clock := w.clock + d)
    case Outside(rid, s) =>
      w.(status := w.status[rid := s], releases := if s.Ready? then w.releases + multiset{rid} else w.releases)
    case Claim(p, rid, carousel) => Claimed(w, p, rid, carousel, Publishing).(runs := w.runs + multiset{rid})
    case ClaimRaises(p, rid) => Claimed(w, p, rid, false, Lapsed)
    case Work(p, turn) => Worked(w, p, turn)
    case Open(q) => w.(rounds := w.rounds[q := Round(w.clock, w.ledger, map[], map[], Idle)])
    case Reconcile(q, turn) => Reconciled(w, q, turn)
  }

  ghost predicate Leads(w: World, acts: seq<Action>, w': World)
    decreases |acts|
  {
    if acts == [] then w' == w
    else Enabled(w, acts[0]) && Leads(Exec(w, acts[0]), acts[1..], w')
  }

  ghost predicate Reachable(w: World) { exists acts :: Leads(Init(), acts, w) }

  // ── the invariant ──────────────────────────────────────────────────────────

  predicate Uploads(w: World, rid: Rid) { rid in w.status && w.status[rid].Uploading? }

  /** Some job claimed the post; this is the one that did so last. */
  predicate HeldByJob(w: World, rid: Rid) {
    rid in w.holder && w.holder[rid] in w.jobs && w.jobs[w.holder[rid]].rid == rid
  }

  function Holder(w: World, rid: Rid): Job
    requires HeldByJob(w, rid)
  {
    w.jobs[w.holder[rid]]
  }

  /** What a post in uploading may have in the ledger stems from its last job, which is over or confided. */
  predicate WroteClue(w: World, rid: Rid) {
    HeldByJob(w, rid) && (Holder(w, rid).pc.Over? || Holder(w, rid).confided)
  }

  ghost predicate JobOk(w: World, p: nat)
    requires p in w.jobs
  {
    var x := w.jobs[p];
    && (Live(x.pc) ==> x.rid in w.holder && w.holder[x.rid] == p)
    && (x.pc.Marked? || x.pc.Cleared? ==> !Uploads(w, x.rid))
    && (x.confided ==> x.carousel)
  }

  ghost predicate PostOk(w: World, rid: Rid) {
    && (Uploads(w, rid) ==>
          && HeldByJob(w, rid)
          && (WroteClue(w, rid) ==> rid in w.ledger && (!Holder(w, rid).pc.Over? ==> w.ledger[rid].kind.InFlight?))
          && (!WroteClue(w, rid) ==> (rid in w.ledger <==> rid in w.left))
          && (!WroteClue(w, rid) && rid in w.ledger ==> w.ledger[rid] == w.left[rid]))
    && w.runs[rid] + (if rid in w.status && w.status[rid].Ready? then 1 else 0) <= w.releases[rid]
  }

  /** The same entry, whatever became of its flag. */
  predicate Same(e: Entry, f: Entry) { e.(alerted := true) == f.(alerted := true) }

  predicate JudgedWell(r: Round) {
    r.pc.Judged? || r.pc.Confirmed? ==>
      r.pc.rid in r.snapshot && Aged(r.snapshot[r.pc.rid], r.start) && Allows(r.snapshot[r.pc.rid], r.pc.d) && !r.pc.d.Hold?
  }

  /** All a round looks at is old; what it resolved, and is still in the ledger unchanged, left uploading
      (or is back in it with a later job that has written nothing). */
  ghost predicate RoundOk(w: World, r: Round) {
    && r.start <= w.clock
    && JudgedWell(r)
    && (forall rid :: rid in r.alerts ==> Aged(r.alerts[rid], r.start))
    && (forall rid :: rid in r.resolved ==> Aged(r.resolved[rid], r.start) && ResolvedOk(w, rid, r.resolved[rid]))
  }

  ghost predicate ResolvedOk(w: World, rid: Rid, e: Entry) {
    rid in w.ledger && Same(w.ledger[rid], e) ==> !Uploads(w, rid) || !WroteClue(w, rid)
  }

  ghost predicate Inv(w: World) {
    && (forall p :: p in w.jobs ==> JobOk(w, p))
    && (forall rid :: PostOk(w, rid))
    && (forall q :: q in w.rounds ==> RoundOk(w, w.rounds[q]))
  }

  lemma InvInit()
    ensures Inv(Init())
  {
  }

  // ── one step ───────────────────────────────────────────────────────────────

  /** What job `x` went through is what entry `e` says. */
  predicate Backs(x: Job, e: Entry) {
    match e.kind
    case PostedUnrecorded => x.outcome == Some(Succeeded(e.mediaId))
    case FailedUnrecorded => x.outcome == Some(Refused)
    case OutcomeUnknown => x.outcome == Some(Unclear(e.creationId))
    case InFlight => x.confided
  }

  predicate OutcomeKept(x: Job) {
    && (x.pc.Publishing? ==> x.outcome.None?)
    && (x.pc.Ended? || x.pc.Marked? || x.pc.Cleared? || x.pc.Unrecorded? ==> x.outcome == Some(x.pc.o))
  }

  /** What every turn keeps to, whatever it is: a job never goes back on what it went through, leaves a
      post only with a verdict, drops an entry only after one, and writes an entry only to say what it
      went through. */
  predicate Lawful(x: Job, ch: Change, now: nat) {
    && Live(x.pc) && ch.x.rid == x.rid && ch.x.carousel == x.carousel
    && (ch.status.Some? ==> x.pc.Ended? && !ch.status.value.Uploading? && !ch.status.value.Ready?)
    && (ch.x.pc.Marked? || ch.x.pc.Cleared? ==> ch.status.Some? || x.pc.Marked?)
    && (ch.op.Drop? ==> x.pc.Marked?)
    && (ch.op.Enter? ==> ch.op.e.at == now && (ch.x.pc.Over? || (ch.op.e.kind.InFlight? && ch.x.confided)))
    && (ch.x.pc.Over? ==> ch.op.Enter? || x.pc.Marked? || x.pc.Cleared?)
    && (x.confided ==> ch.x.confided) && (ch.x.confided && !x.confided ==> ch.op.Enter? && x.carousel)
    && (OutcomeKept(x) ==>
          && OutcomeKept(ch.x) && (x.outcome.Some? ==> ch.x.outcome == x.outcome)
          && (ch.op.Enter? ==> Backs(ch.x, ch.op.e))
          && (ch.status.Some? ==> ch.x.outcome.Some? && !ch.x.outcome.value.Unclear?
                                  && ch.status.value == if ch.x.outcome.value.Succeeded? then Posted else Rejected))
  }

  lemma TurnIsLawful(x: Job, turn: JobTurn, now: nat)
    requires CanTurn(x, turn)
    ensures Lawful(x, Turned(x, turn, now), now)
  {
  }

  lemma JobTurnKeepsJob(w: World, p: nat, ch: Change, q: nat)
    requires p in w.jobs && Lawful(w.jobs[p], ch, w.clock) && q in w.jobs && JobOk(w, p) && JobOk(w, q)
    ensures JobOk(Changed(w, p, ch), q)
  {
  }

  lemma JobTurnKeepsPosts(w: World, p: nat, ch: Change, rid: Rid)
    requires p in w.jobs && Lawful(w.jobs[p], ch, w.clock) && JobOk(w, p) && PostOk(w, rid)
    ensures PostOk(Changed(w, p, ch), rid)
  {
  }

  lemma JobTurnEases(w: World, p: nat, ch: Change, rid: Rid, e: Entry)
    requires p in w.jobs && Lawful(w.jobs[p], ch, w.clock) && JobOk(w, p) && PostOk(w, rid)
    requires ResolvedOk(w, rid, e) && e.at < w.clock
    ensures ResolvedOk(Changed(w, p, ch), rid, e)
  {
  }

  lemma JobTurnKeepsInv(w: World, p: nat, turn: JobTurn)
    requires Inv(w) && Enabled(w, Work(p, turn))
    ensures Inv(Worked(w, p, turn))
  {
    var ch, w' := Turned(w.jobs[p], turn, w.clock), Worked(w, p, turn);
    TurnIsLawful(w.jobs[p], turn, w.clock);
    forall q | q in w'.jobs ensures JobOk(w', q) {
      JobTurnKeepsJob(w, p, ch, q);
    }
    forall rid ensures PostOk(w', rid) {
      assert PostOk(w, rid);
      JobTurnKeepsPosts(w, p, ch, rid);
    }
    forall q | q in w'.rounds ensures RoundOk(w', w'.rounds[q]) {
      JobTurnKeepsRound(w, p, ch, w.rounds[q]);
    }
  }

  lemma JobTurnKeepsRound(w: World, p: nat, ch: Change, r: Round)
    requires Inv(w) && p in w.jobs && Lawful(w.jobs[p], ch, w.clock) && RoundOk(w, r)
    ensures RoundOk(Changed(w, p, ch), r)
  {
    assert JobOk(w, p);
    forall rid | rid in r.resolved ensures ResolvedOk(Changed(w, p, ch), rid, r.resolved[rid]) {
      assert PostOk(w, rid);
      JobTurnEases(w, p, ch, rid, r.resolved[rid]);
    }
  }

  /** What every step of a round keeps to: it takes a post out of uploading only with the verdict it
      confirmed, resolves an entry only by doing so, and looks at old entries of its snapshot only. */
  predicate LawfulStep(r: Round, ch: RoundChange) {
    && ch.r.start == r.start && ch.r.snapshot == r.snapshot
    && (ch.verdict.Some? ==> r.pc.Confirmed? && !ch.verdict.value.Uploading? && !ch.verdict.value.Ready?)
    && (ch.verdict.Some? ==> ch.verdict.value == if r.pc.d.ToPosted? then Posted else Rejected)
    && (ch.r.resolved == r.resolved
        || (ch.verdict.Some? && r.pc.rid in r.snapshot && ch.r.resolved == r.resolved[r.pc.rid := r.snapshot[r.pc.rid]]))
    && (JudgedWell(r) ==> JudgedWell(ch.r) && forall rid :: rid in ch.r.alerts && rid !in r.alerts ==> Aged(ch.r.alerts[rid], r.start))
    && (JudgedWell(r) ==> forall rid :: rid in ch.r.alerts && rid in r.alerts && ch.r.alerts[rid] != r.alerts[rid] ==> Aged(ch.r.alerts[rid], r.start))
  }

  lemma StepIsLawful(status: map<Rid, PostStatus>, r: Round, turn: RoundTurn)
    requires CanReconcile(r, turn)
    ensures LawfulStep(r, Stepped(status, r, turn))
  {
  }

  lemma RoundTurnKeepsPost(w: World, q: nat, ch: RoundChange, rid: Rid)
    requires q in w.rounds && LawfulStep(w.rounds[q], ch) && RoundOk(w, w.rounds[q]) && PostOk(w, rid)
    ensures PostOk(RoundChanged(w, q, ch), rid)
  {
  }

  lemma RoundTurnEases(w: World, q: nat, ch: RoundChange, rid: Rid, e: Entry)
    requires q in w.rounds && LawfulStep(w.rounds[q], ch) && ResolvedOk(w, rid, e)
    ensures ResolvedOk(RoundChanged(w, q, ch), rid, e)
  {
  }

  lemma RoundTurnKeepsRound(w: World, q: nat, ch: RoundChange)
    requires q in w.rounds && LawfulStep(w.rounds[q], ch) && RoundOk(w, w.rounds[q])
    ensures RoundOk(RoundChanged(w, q, ch), ch.r)
  {
    var r := w.rounds[q];
    forall rid | rid in r.resolved ensures ResolvedOk(RoundChanged(w, q, ch), rid, r.resolved[rid]) {
      RoundTurnEases(w, q, ch, rid, r.resolved[rid]);
    }
  }

  lemma RoundTurnKeepsOther(w: World, q: nat, ch: RoundChange, r: Round)
    requires q in w.rounds && LawfulStep(w.rounds[q], ch) && RoundOk(w, r)
    ensures RoundOk(RoundChanged(w, q, ch), r)
  {
    forall rid | rid in r.resolved ensures ResolvedOk(RoundChanged(w, q, ch), rid, r.resolved[rid]) {
      RoundTurnEases(w, q, ch, rid, r.resolved[rid]);
    }
  }

  lemma RoundTurnKeepsInv(w: World, q: nat, turn: RoundTurn)
    requires Inv(w) && Enabled(w, Reconcile(q, turn))
    ensures Inv(Reconciled(w, q, turn))
  {
    StepIsLawful(w.status, w.rounds[q], turn);
    RoundChangeKeepsInv(w, q, Stepped(w.status, w.rounds[q], turn));
  }

  lemma RoundChangeKeepsInv(w: World, q: nat, ch: RoundChange)
    requires Inv(w) && q in w.rounds && LawfulStep(w.rounds[q], ch)
    ensures Inv(RoundChanged(w, q, ch))
  {
    var w' := RoundChanged(w, q, ch);
    forall p | p in w'.jobs ensures JobOk(w', p) {
      assert JobOk(w, p);
    }
    forall rid ensures PostOk(w', rid) {
      assert PostOk(w, rid);
      RoundTurnKeepsPost(w, q, ch, rid);
    }
    RoundTurnKeepsRound(w, q, ch);
    forall k | k in w'.rounds && k != q ensures RoundOk(w', w'.rounds[k]) {
      RoundTurnKeepsOther(w, q, ch, w.rounds[k]);
    }
  }

  lemma OtherKeepsJob(w: World, a: Action, p: nat)
    requires Inv(w) && Enabled(w, a) && !a.Work? && !a.Reconcile? && p in Exec(w, a).jobs
    ensures JobOk(Exec(w, a), p)
  {
    if p in w.jobs { assert JobOk(w, p); }
  }

  lemma OtherKeepsInv(w: World, a: Action)
    requires Inv(w) && Enabled(w, a) && !a.Work? && !a.Reconcile?
    ensures Inv(Exec(w, a))
  {
    var w' := Exec(w, a);
    forall p | p in w'.jobs ensures JobOk(w', p) {
      OtherKeepsJob(w, a, p);
    }
    forall rid ensures PostOk(w', rid) {
      assert PostOk(w, rid);
    }
    forall k | k in w'.rounds ensures RoundOk(w', w'.rounds[k]) {
      if k in w.rounds { OtherKeepsRound(w, a, w.rounds[k]); }
    }
  }

  lemma OtherKeepsRound(w: World, a: Action, r: Round)
    requires Inv(w) && Enabled(w, a) && !a.Work? && !a.Reconcile? && RoundOk(w, r)
    ensures RoundOk(Exec(w, a), r)
  {
  }

  lemma {:induction false} InvRun(w: World, acts: seq<Action>, w': World)
    requires Inv(w) && Leads(w, acts, w')
    ensures Inv(w')
    decreases |acts|
  {
    if acts != [] {
      match acts[0] {
        case Work(p, turn) => JobTurnKeepsInv(w, p, turn);
        case Reconcile(q, turn) => RoundTurnKeepsInv(w, q, turn);
        case _ => OtherKeepsInv(w, acts[0]);
      }
      InvRun(Exec(w, acts[0]), acts[1..], w');
    }
  }

  // ── nothing is forgotten ───────────────────────────────────────────────────

  lemma ReachableKeeps(w: World)
    requires Reachable(w)
    ensures Inv(w)
  {
    var acts :| Leads(Init(), acts, w);
    InvInit();
    InvRun(Init(), acts, w);
  }

  /** Exactly when a post left in uploading has an entry: when the job that claimed it last is over, or
      had confided in the ledger before it died, or when the claim found an entry there that no round has
      removed since. */
  lemma NothingIsForgotten(w: World, rid: Rid)
    requires Reachable(w) && Uploads(w, rid)
    ensures HeldByJob(w, rid)
    ensures rid in w.ledger <==> Holder(w, rid).pc.Over? || Holder(w, rid).confided || rid in w.left
  {
    ReachableKeeps(w);
    assert PostOk(w, rid);
  }

  /** What a dead job leaves: nothing, exactly when it had not confided and its claim found nothing, or
      nothing that stayed.  A job for a single post never confides. */
  lemma WhatADeadJobLeaves(w: World, rid: Rid)
    requires Reachable(w) && Uploads(w, rid) && HeldByJob(w, rid) && Holder(w, rid).pc.Lapsed?
    ensures rid !in w.ledger <==> !Holder(w, rid).confided && rid !in w.left
    ensures Holder(w, rid).confided ==> w.ledger[rid].kind.InFlight?
    ensures !Holder(w, rid).carousel ==> !Holder(w, rid).confided
  {
    ReachableKeeps(w);
    assert PostOk(w, rid) && JobOk(w, w.holder[rid]);
  }

  /** The exception is real: a job that dies between its claim and its verdict (as publish_single does on
      a 200 whose body is not a JSON object) leaves a post in uploading that no entry speaks of. */
  lemma ADeadJobLeavesNoTrace(rid: Rid) returns (w: World)
    ensures Reachable(w) && Uploads(w, rid) && rid !in w.ledger && forall p :: p in w.jobs ==> !Live(w.jobs[p].pc)
  {
    var w1 := Exec(Init(), Outside(rid, Ready));
    var w2 := Exec(w1, Claim(0, rid, false));
    w := Exec(w2, Work(0, Crash));
    assert Leads(w, [], w);
    assert [Work(0, Crash)][1..] == [];
    assert Leads(w2, [Work(0, Crash)], w);
    assert [Claim(0, rid, false), Work(0, Crash)][1..] == [Work(0, Crash)];
    assert Leads(w1, [Claim(0, rid, false), Work(0, Crash)], w);
    var acts := [Outside(rid, Ready), Claim(0, rid, false), Work(0, Crash)];
    assert acts[1..] == [Claim(0, rid, false), Work(0, Crash)];
    assert Leads(Init(), acts, w);
  }

  /** Every publishing run was asked for: none is started by reconciling, retrying or restarting. */
  lemma RunsAreReleased(w: World, rid: Rid)
    requires Reachable(w)
    ensures w.runs[rid] <= w.releases[rid]
  {
    var acts :| Leads(Init(), acts, w);
    InvInit();
    InvRun(Init(), acts, w);
    assert PostOk(w, rid);
  }

  /** The end of a round spares whatever was written since it began, and all it removes is an entry it
      judged itself, of a post that is out of uploading or in the hands of a later job. */
  lemma RoundSparesTheNew(w: World, q: nat, rid: Rid)
    requires Reachable(w) && Enabled(w, Reconcile(q, Apply(true))) && rid in w.ledger
    ensures var w' := Exec(w, Reconcile(q, Apply(true)));
            && (w.ledger[rid].at + 1800 > w.rounds[q].start ==> rid in w'.ledger && w'.ledger[rid] == w.ledger[rid])
            && (rid in w'.ledger ==> Same(w'.ledger[rid], w.ledger[rid]))
            && (rid !in w'.ledger ==> rid in w.rounds[q].resolved && w.rounds[q].resolved[rid] == w.ledger[rid]
                                      && (!Uploads(w', rid) || !WroteClue(w', rid)))
  {
    var acts :| Leads(Init(), acts, w);
    InvInit();
    InvRun(Init(), acts, w);
    assert RoundOk(w, w.rounds[q]);
  }

  // ── verdicts rest on what a job saw ────────────────────────────────────────

  ghost predicate Backed(jobs: map<nat, Job>, rid: Rid, e: Entry) {
    exists p :: p in jobs && jobs[p].rid == rid && Backs(jobs[p], e)
  }

  ghost predicate AllBacked(jobs: map<nat, Job>, entries: map<Rid, Entry>) {
    forall rid :: rid in entries ==> Backed(jobs, rid, entries[rid])
  }

  ghost predicate BackInv(w: World) {
    && (forall p :: p in w.jobs ==> OutcomeKept(w.jobs[p]))
    && AllBacked(w.jobs, w.ledger)
    && (forall q :: q in w.rounds ==> AllBacked(w.jobs, w.rounds[q].snapshot) && JudgedWell(w.rounds[q]))
  }

  /** Jobs stay, and remember. */
  predicate JobsGrow(jobs: map<nat, Job>, jobs': map<nat, Job>) {
    forall p :: p in jobs ==>
      p in jobs' && jobs'[p].rid == jobs[p].rid && (jobs[p].outcome.Some? ==> jobs'[p].outcome == jobs[p].outcome)
      && (jobs[p].confided ==> jobs'[p].confided)
  }

  lemma StaysBacked(jobs: map<nat, Job>, jobs': map<nat, Job>, entries: map<Rid, Entry>)
    requires JobsGrow(jobs, jobs') && AllBacked(jobs, entries)
    ensures AllBacked(jobs', entries)
  {
    forall rid | rid in entries ensures Backed(jobs', rid, entries[rid]) {
      var p :| p in jobs && jobs[p].rid == rid && Backs(jobs[p], entries[rid]);
      assert p in jobs' && jobs'[p].rid == rid && Backs(jobs'[p], entries[rid]);
    }
  }

  lemma AppliedStaysBacked(jobs: map<nat, Job>, ledger: map<Rid, Entry>, resolved: map<Rid, Entry>, alerts: map<Rid, Entry>)
    requires AllBacked(jobs, ledger)
    ensures AllBacked(jobs, Applied(ledger, resolved, alerts))
  {
    var ledger' := Applied(ledger, resolved, alerts);
    forall rid | rid in ledger' ensures Backed(jobs, rid, ledger'[rid]) {
      var p :| p in jobs && jobs[p].rid == rid && Backs(jobs[p], ledger[rid]);
      assert Backs(jobs[p], ledger'[rid]);
    }
  }

  lemma JobTurnKeepsBacking(w: World, p: nat, ch: Change)
    requires BackInv(w) && p in w.jobs && Lawful(w.jobs[p], ch, w.clock)
    ensures BackInv(Changed(w, p, ch))
  {
    var w' := Changed(w, p, ch);
    assert OutcomeKept(w.jobs[p]);
    StaysBacked(w.jobs, w'.jobs, w.ledger);
    forall rid | rid in w'.ledger ensures Backed(w'.jobs, rid, w'.ledger[rid]) {
      if rid == w.jobs[p].rid && ch.op.Enter? {
        assert Backs(w'.jobs[p], w'.ledger[rid]);
      }
    }
    forall q | q in w'.rounds ensures AllBacked(w'.jobs, w'.rounds[q].snapshot) {
      StaysBacked(w.jobs, w'.jobs, w.rounds[q].snapshot);
    }
  }

  lemma RoundTurnKeepsBacking(w: World, q: nat, ch: RoundChange)
    requires BackInv(w) && q in w.rounds && LawfulStep(w.rounds[q], ch)
    ensures BackInv(RoundChanged(w, q, ch))
  {
    var w' := RoundChanged(w, q, ch);
    AppliedStaysBacked(w.jobs, w.ledger, w.rounds[q].resolved, w.rounds[q].alerts);
    forall k | k in w'.rounds ensures AllBacked(w'.jobs, w'.rounds[k].snapshot) && JudgedWell(w'.rounds[k]) {
      assert k in w.rounds && AllBacked(w.jobs, w.rounds[k].snapshot) && JudgedWell(w.rounds[k]);
    }
  }

  lemma OtherKeepsBacking(w: World, a: Action)
    requires BackInv(w) && Enabled(w, a) && !a.Work? && !a.Reconcile?
    ensures BackInv(Exec(w, a))
  {
    var w' := Exec(w, a);
    StaysBacked(w.jobs, w'.jobs, w.ledger);
    forall k | k in w'.rounds ensures AllBacked(w'.jobs, w'.rounds[k].snapshot) && JudgedWell(w'.rounds[k]) {
      if k in w.rounds { StaysBacked(w.jobs, w'.jobs, w.rounds[k].snapshot); }
    }
  }

  lemma {:induction false} BackRun(w: World, acts: seq<Action>, w': World)
    requires BackInv(w) && Leads(w, acts, w')
    ensures BackInv(w')
    decreases |acts|
  {
    if acts != [] {
      match acts[0] {
        case Work(p, turn) =>
          TurnIsLawful(w.jobs[p], turn, w.clock);
          JobTurnKeepsBacking(w, p, Turned(w.jobs[p], turn, w.clock));
        case Reconcile(q, turn) =>
          StepIsLawful(w.status, w.rounds[q], turn);
          RoundTurnKeepsBacking(w, q, Stepped(w.status, w.rounds[q], turn));
        case _ => OtherKeepsBacking(w, acts[0]);
      }
      BackRun(Exec(w, acts[0]), acts[1..], w');
    }
  }

  predicate Writes(w: World, q: nat, turn: RoundTurn, rid: Rid, d: Decision) {
    q in w.rounds && w.rounds[q].pc == Confirmed(rid, d) && (turn.Settle? || turn.SettleRaises?)
  }

  /** Some publishing job of the post ended in `o`. */
  ghost predicate EndedIn(w: World, rid: Rid, o: Outcome) {
    exists p :: p in w.jobs && w.jobs[p].rid == rid && w.jobs[p].outcome == Some(o)
  }

  /** A round writes `posted` only for a post of which some job had seen the media id, and `failed` only
      when some job was refused, or for a container some job had confided or lost track of. */
  lemma VerdictsRestOnJobs(w: World, q: nat, turn: RoundTurn, rid: Rid, d: Decision)
    requires Reachable(w) && Enabled(w, Reconcile(q, turn)) && Writes(w, q, turn, rid, d)
    ensures !d.Hold? && rid in w.rounds[q].snapshot
    ensures var e := w.rounds[q].snapshot[rid];
            && (d.ToPosted? ==> e.mediaId != "" && EndedIn(w, rid, Succeeded(e.mediaId)))
            && (d.ToFailed? ==>
                  || EndedIn(w, rid, Refused)
                  || (e.creationId != "" && (EndedIn(w, rid, Unclear(e.creationId)) || (e.kind.InFlight? && Backed(w.jobs, rid, e)))))
  {
    var acts :| Leads(Init(), acts, w);
    BackRun(Init(), acts, w);
    var e := w.rounds[q].snapshot[rid];
    assert JudgedWell(w.rounds[q]) && Backed(w.jobs, rid, e);
    var p :| p in w.jobs && w.jobs[p].rid == rid && Backs(w.jobs[p], e);
  }

  /** Nothing in the system but such a write, and the job that published, makes a post `posted`. */
  lemma PostedIsDeclared(w: World, a: Action, rid: Rid)
    requires Reachable(w) && Enabled(w, a) && (a.Work? || a.Reconcile?)
    requires rid in Exec(w, a).status && Exec(w, a).status[rid].Posted? && !(rid in w.status && w.status[rid].Posted?)
    ensures exists m :: EndedIn(Exec(w, a), rid, Succeeded(m))
  {
    if a.Reconcile? {
      PostedByRound(w, a.q, a.step, rid);
    } else {
      var acts :| Leads(Init(), acts, w);
      BackRun(Init(), acts, w);
      PostedByJob(w, a.p, a.turn, rid);
    }
  }

  /** What a job writes to its post is what it went through itself, in both directions: posted exactly
      when its publishing run succeeded, failed exactly when it was refused. */
  lemma JobDeclaresItsOutcome(w: World, p: nat, turn: JobTurn)
    requires Reachable(w) && Enabled(w, Work(p, turn))
    ensures var x, w' := w.jobs[p], Exec(w, Work(p, turn));
            && (turn.Mark? || turn == MarkRaises(true) ==>
                  && x.outcome.Some? && x.outcome.value == x.pc.o
                  && w'.status == w.status[x.rid := if x.outcome.value.Succeeded? then Posted else Rejected]
                  && (w'.status[x.rid].Posted? <==> x.outcome.value.Succeeded?) && (w'.status[x.rid].Rejected? <==> x.outcome.value.Refused?))
            && (!turn.Mark? && turn != MarkRaises(true) ==> w'.status == w.status)
  {
    var acts :| Leads(Init(), acts, w);
    BackRun(Init(), acts, w);
    assert OutcomeKept(w.jobs[p]);
    TurnIsLawful(w.jobs[p], turn, w.clock);
  }

  /** A step of a round writes what it confirmed, and nothing else. */
  lemma RoundWritesItsVerdict(w: World, q: nat, turn: RoundTurn)
    requires Enabled(w, Reconcile(q, turn))
    ensures var w' := Exec(w, Reconcile(q, turn));
            && (turn.Settle? || turn == SettleRaises(true) ==>
                  w'.status == w.status[w.rounds[q].pc.rid := if w.rounds[q].pc.d.ToPosted? then Posted else Rejected])
            && (!turn.Settle? && turn != SettleRaises(true) ==> w'.status == w.status)
            && (turn != Apply(true) ==> w'.ledger == w.ledger)
  {
  }

  /** No step of a job or a round makes a post failed unless a job of it was refused, or a round judged
      the container that one of its jobs had confided or lost track of. */
  lemma RejectedIsDeclared(w: World, a: Action, rid: Rid)
    requires Reachable(w) && Enabled(w, a) && (a.Work? || a.Reconcile?)
    requires rid in Exec(w, a).status && Exec(w, a).status[rid].Rejected? && !(rid in w.status && w.status[rid].Rejected?)
    ensures EndedIn(w, rid, Refused)
            || (a.Reconcile? && rid in w.rounds[a.q].snapshot && var e := w.rounds[a.q].snapshot[rid];
                e.creationId != "" && (EndedIn(w, rid, Unclear(e.creationId)) || (e.kind.InFlight? && Backed(w.jobs, rid, e))))
  {
    if a.Reconcile? {
      StepIsLawful(w.status, w.rounds[a.q], a.step);
      assert Writes(w, a.q, a.step, rid, w.rounds[a.q].pc.d);
      VerdictsRestOnJobs(w, a.q, a.step, rid, w.rounds[a.q].pc.d);
    } else {
      JobDeclaresItsOutcome(w, a.p, a.turn);
      assert rid == w.jobs[a.p].rid && w.jobs[a.p].outcome == Some(Refused);
    }
  }

  lemma PostedByRound(w: World, q: nat, turn: RoundTurn, rid: Rid)
    requires Reachable(w) && Enabled(w, Reconcile(q, turn))
    requires var w' := Reconciled(w, q, turn); rid in w'.status && w'.status[rid].Posted? && !(rid in w.status && w.status[rid].Posted?)
    ensures exists m :: EndedIn(Reconciled(w, q, turn), rid, Succeeded(m))
  {
    StepIsLawful(w.status, w.rounds[q], turn);
    assert Writes(w, q, turn, rid, ToPosted);
    VerdictsRestOnJobs(w, q, turn, rid, ToPosted);
    assert EndedIn(Reconciled(w, q, turn), rid, Succeeded(w.rounds[q].snapshot[rid].mediaId));
  }

  lemma PostedByJob(w: World, p: nat, turn: JobTurn, rid: Rid)
    requires BackInv(w) && Enabled(w, Work(p, turn))
    requires var w' := Worked(w, p, turn); rid in w'.status && w'.status[rid].Posted? && !(rid in w.status && w.status[rid].Posted?)
    ensures exists m :: EndedIn(Worked(w, p, turn), rid, Succeeded(m))
  {
    var ch, w' := Turned(w.jobs[p], turn, w.clock), Worked(w, p, turn);
    TurnIsLawful(w.jobs[p], turn, w.clock);
    assert OutcomeKept(w.jobs[p]) && rid == ch.x.rid && ch.status == Some(Posted);
    assert w'.jobs[p] == ch.x;
    assert EndedIn(w', rid, Succeeded(ch.x.outcome.value.mediaId));
  }

  // ── undisturbed rounds and jobs ────────────────────────────────────────────

  /** The worlds a run passes through, step by step. */
  ghost predicate Path(ws: seq<World>, acts: seq<Action>) {
    |ws| == |acts| + 1 && forall n | 0 <= n < |acts| :: Enabled(ws[n], acts[n]) && ws[n + 1] == Exec(ws[n], acts[n])
  }

  lemma {:induction false} PathLeads(ws: seq<World>, acts: seq<Action>)
    requires Path(ws, acts)
    ensures Leads(ws[0], acts, ws[|ws| - 1])
    decreases |acts|
  {
    if acts != [] {
      assert ws[1..][0] == ws[1] == Exec(ws[0], acts[0]);
      assert forall n | 0 <= n < |acts| - 1 :: acts[1..][n] == acts[n + 1] && ws[1..][n] == ws[n + 1];
      PathLeads(ws[1..], acts[1..]);
    }
  }

  lemma Extends(ws: seq<World>, acts: seq<Action>, a: Action) returns (ws': seq<World>, acts': seq<Action>)
    requires Path(ws, acts) && Enabled(ws[|ws| - 1], a)
    ensures acts' == acts + [a] && ws' == ws + [Exec(ws[|ws| - 1], a)] && Path(ws', acts')
  {
    ws', acts' := ws + [Exec(ws[|ws| - 1], a)], acts + [a];
  }

  /** The evidence in an old entry allows this verdict: an id that was returned, a refusal, or a container
      that can be looked up. */
  predicate Settleable(e: Entry, now: nat, verdict: PostStatus) {
    && e.at + 1800 <= now
    && match e.kind
       case PostedUnrecorded => e.mediaId != "" && verdict.Posted?
       case FailedUnrecorded => verdict.Rejected?
       case _ => e.creationId != "" && verdict.Rejected?
  }

  function DecisionFor(verdict: PostStatus): Decision { if verdict.Posted? then ToPosted else ToFailed }

  /** The steps of a round that decides one entry. */
  function Deciding(q: nat, rid: Rid, verdict: PostStatus): seq<Action> {
    [Open(q), Reconcile(q, Judge(rid, DecisionFor(verdict))), Reconcile(q, Fetch(true)), Reconcile(q, Settle)]
  }

  /** A round decides one entry and writes its verdict. */
  lemma DecidesOne(ws: seq<World>, acts: seq<Action>, q: nat, rid: Rid, verdict: PostStatus) returns (ws': seq<World>, acts': seq<Action>)
    requires Path(ws, acts) && var w := ws[|ws| - 1];
             q !in w.rounds && Uploads(w, rid) && rid in w.ledger && Settleable(w.ledger[rid], w.clock, verdict)
    ensures Path(ws', acts') && ws'[0] == ws[0] && acts' == acts + Deciding(q, rid, verdict)
    ensures var w, w' := ws[|ws| - 1], ws'[|ws'| - 1];
            && w' == w.(status := w.status[rid := verdict], rounds := w'.rounds) && q in w'.rounds
            && w'.rounds[q] == Round(w.clock, w.ledger, map[rid := w.ledger[rid]], map[], Idle)
  {
    var d := DecisionFor(verdict);
    ws', acts' := Extends(ws, acts, Open(q));
    ws', acts' := Extends(ws', acts', Reconcile(q, Judge(rid, d)));
    assert ws'[|ws'| - 1].rounds[q].pc == Judged(rid, d);
    ws', acts' := Extends(ws', acts', Reconcile(q, Fetch(true)));
    assert ws'[|ws'| - 1].rounds[q].pc == Confirmed(rid, d);
    ws', acts' := Extends(ws', acts', Reconcile(q, Settle));
  }

  /** An undisturbed round settles an old entry whose evidence allows a verdict: the post leaves uploading
      with that verdict, the entry goes, and no job is touched. */
  lemma RoundSettles(ws: seq<World>, acts: seq<Action>, q: nat, rid: Rid, verdict: PostStatus) returns (ws': seq<World>, acts': seq<Action>)
    requires Path(ws, acts) && var w := ws[|ws| - 1];
             q !in w.rounds && Uploads(w, rid) && rid in w.ledger && Settleable(w.ledger[rid], w.clock, verdict)
    ensures Path(ws', acts') && ws'[0] == ws[0] && acts' == acts + Deciding(q, rid, verdict) + [Reconcile(q, Apply(true))]
    ensures Leads(ws[0], acts', ws'[|ws'| - 1])
    ensures var w, w' := ws[|ws| - 1], ws'[|ws'| - 1];
            w'.status == w.status[rid := verdict] && w'.ledger == w.ledger - {rid} && w'.jobs == w.jobs && w'.runs == w.runs
  {
    ws', acts' := DecidesOne(ws, acts, q, rid, verdict);
    ws', acts' := Applies(ws', acts', q);
    AppliesOne(ws[|ws| - 1].ledger, rid);
    PathLeads(ws', acts');
  }

  lemma AppliesOne(ledger: map<Rid, Entry>, rid: Rid)
    requires rid in ledger
    ensures Applied(ledger, map[rid := ledger[rid]], map[]) == ledger - {rid}
  {
  }

  lemma AlertsOne(ledger: map<Rid, Entry>, rid: Rid)
    requires rid in ledger
    ensures Applied(ledger, map[], map[rid := ledger[rid]]) == ledger[rid := ledger[rid].(alerted := true)]
    ensures Applied(ledger, map[], map[]) == ledger && (ledger[rid].alerted ==> ledger == ledger[rid := ledger[rid].(alerted := true)])
  {
  }

  predicate Insufficient(e: Entry) {
    if e.kind.PostedUnrecorded? then e.mediaId == "" else !e.kind.FailedUnrecorded?
  }

  /** The alert a round gives for an entry it cannot settle: none, if one was given before. */
  function Alert(ledger: map<Rid, Entry>, rid: Rid): map<Rid, Entry>
    requires rid in ledger
  {
    if ledger[rid].alerted then map[] else map[rid := ledger[rid]]
  }

  /** A round that comes to an entry it cannot settle puts it on its list of alerts. */
  lemma HoldsOne(ws: seq<World>, acts: seq<Action>, q: nat, rid: Rid, agrees: bool) returns (ws': seq<World>, acts': seq<Action>)
    requires Path(ws, acts) && var w := ws[|ws| - 1];
             && q in w.rounds && w.rounds[q] == Round(w.clock, w.ledger, map[], map[], Idle)
             && rid in w.ledger && w.ledger[rid].at + 1800 <= w.clock
             && (!Insufficient(w.ledger[rid]) ==> !Uploads(w, rid) || !agrees)
    ensures Path(ws', acts') && ws'[0] == ws[0]
    ensures |acts'| >= |acts| && acts'[..|acts|] == acts
    ensures forall i | |acts| <= i < |acts'| :: acts'[i].Reconcile? && acts'[i].q == q
    ensures var w := ws[|ws| - 1];
            ws'[|ws'| - 1] == w.(rounds := w.rounds[q := w.rounds[q].(alerts := Alert(w.ledger, rid))])
  {
    var w := ws[|ws| - 1];
    var e := w.ledger[rid];
    var d := if Insufficient(e) then Hold else if e.kind.PostedUnrecorded? then ToPosted else ToFailed;
    ws', acts' := Extends(ws, acts, Reconcile(q, Judge(rid, d)));
    if !Insufficient(e) {
      assert ws'[|ws'| - 1].rounds[q].pc == Judged(rid, d);
      ws', acts' := Extends(ws', acts', Reconcile(q, Fetch(agrees)));
    }
    assert ws'[|ws'| - 1].rounds == w.rounds[q := w.rounds[q].(alerts := Alert(w.ledger, rid))];
  }

  /** What cannot be settled is left for a person: the evidence does not suffice, the post is no longer
      uploading, or the lookup fails or finds another account.  The post keeps its status, and the entry
      is kept and marked as reported, so that it is reported once. */
  lemma RoundHolds(w: World, q: nat, rid: Rid, agrees: bool) returns (acts: seq<Action>, w': World)
    requires q !in w.rounds && rid in w.ledger && w.ledger[rid].at + 1800 <= w.clock
    requires !Insufficient(w.ledger[rid]) ==> !Uploads(w, rid) || !agrees
    ensures Leads(w, acts, w') && forall i | 0 <= i < |acts| :: acts[i] == Open(q) || (acts[i].Reconcile? && acts[i].q == q)
    ensures w'.status == w.status && w'.ledger == w.ledger[rid := w.ledger[rid].(alerted := true)] && w'.jobs == w.jobs
  {
    var ws;
    ws, acts := Opens(w, q);
    ws, acts := HoldsOne(ws, acts, q, rid, agrees);
    ws, acts := Applies(ws, acts, q);
    w' := ws[|ws| - 1];
    AlertsOne(w.ledger, rid);
    PathLeads(ws, acts);
  }

  lemma Opens(w: World, q: nat) returns (ws: seq<World>, acts: seq<Action>)
    requires q !in w.rounds
    ensures Path(ws, acts) && ws[0] == w && acts == [Open(q)]
    ensures ws[|ws| - 1] == w.(rounds := w.rounds[q := Round(w.clock, w.ledger, map[], map[], Idle)])
  {
    ws, acts := Extends([w], [], Open(q));
  }

  lemma Applies(ws: seq<World>, acts: seq<Action>, q: nat) returns (ws': seq<World>, acts': seq<Action>)
    requires Path(ws, acts) && q in ws[|ws| - 1].rounds && ws[|ws| - 1].rounds[q].pc.Idle?
    ensures Path(ws', acts') && ws'[0] == ws[0] && acts' == acts + [Reconcile(q, Apply(true))]
    ensures var w, w' := ws[|ws| - 1], ws'[|ws'| - 1];
            w'.status == w.status && w'.jobs == w.jobs && w'.runs == w.runs
            && w'.ledger == Applied(w.ledger, w.rounds[q].resolved, w.rounds[q].alerts)
  {
    ws', acts' := Extends(ws, acts, Reconcile(q, Apply(true)));
  }

  /** How a job that ended in `o` leaves its post: with the outcome written to Airtable, if there is one
      and it can be written, and otherwise uploading, with an entry that says what is known. */
  function StatusLeft(o: Outcome, writes: bool): PostStatus {
    if o.Unclear? || !writes then Uploading else if o.Succeeded? then Posted else Rejected
  }

  function EntryLeft(o: Outcome, now: nat): Entry {
    match o
    case Succeeded(m) => Entry(PostedUnrecorded, "", m, now, false)
    case Refused => Entry(FailedUnrecorded, "", "", now, false)
    case Unclear(c) => Entry(OutcomeUnknown, c, "", now, false)
  }

  /** The outcome is written, and nothing is left to say about the post. */
  lemma JobRecords(ws: seq<World>, acts: seq<Action>, p: nat) returns (ws': seq<World>, acts': seq<Action>)
    requires Path(ws, acts) && var w := ws[|ws| - 1]; p in w.jobs && w.jobs[p].pc.Ended? && !w.jobs[p].pc.o.Unclear?
    ensures Path(ws', acts') && ws'[0] == ws[0]
    ensures var w, w' := ws[|ws| - 1], ws'[|ws'| - 1]; var x := w.jobs[p];
            && w' == w.(jobs := w.jobs[p := x.(pc := Over)], status := w.status[x.rid := StatusLeft(x.pc.o, true)],
                        ledger := if x.carousel then w.ledger - {x.rid} else w.ledger)
  {
    var w := ws[|ws| - 1];
    var x := w.jobs[p];
    ws', acts' := Extends(ws, acts, Work(p, Mark));
    assert ws'[|ws'| - 1].jobs[p] == x.(pc := Marked(x.pc.o));
    if x.carousel {
      ws', acts' := Extends(ws', acts', Work(p, Clear(true)));
      assert ws'[|ws'| - 1].jobs[p] == x.(pc := Cleared(x.pc.o));
    }
    ws', acts' := Extends(ws', acts', Work(p, Finish));
    assert ws'[|ws'| - 1].jobs == w.jobs[p := x.(pc := Over)];
  }

  /** There is no outcome, or it cannot be written: the job says what it knows in the ledger. */
  lemma JobConfesses(ws: seq<World>, acts: seq<Action>, p: nat) returns (ws': seq<World>, acts': seq<Action>)
    requires Path(ws, acts) && var w := ws[|ws| - 1]; p in w.jobs && w.jobs[p].pc.Ended?
    ensures Path(ws', acts') && ws'[0] == ws[0]
    ensures var w, w' := ws[|ws| - 1], ws'[|ws'| - 1]; var x := w.jobs[p];
            w' == w.(jobs := w.jobs[p := x.(pc := Over)], ledger := w.ledger[x.rid := EntryLeft(x.pc.o, w.clock)])
  {
    var w := ws[|ws| - 1];
    var x := w.jobs[p];
    ws', acts' := ws, acts;
    if !x.pc.o.Unclear? {
      ws', acts' := Extends(ws', acts', Work(p, MarkRaises(false)));
      assert ws'[|ws'| - 1].jobs[p] == x.(pc := Unrecorded(x.pc.o));
    }
    ws', acts' := Extends(ws', acts', Work(p, Put(true)));
    assert ws'[|ws'| - 1].jobs == w.jobs[p := x.(pc := Over)];
  }

  /** An exception once the outcome is written puts a clue in the ledger all the same; the post is left with
      its verdict, so a round will not touch it. */
  lemma JobTrips(w: World, p: nat) returns (acts: seq<Action>, w': World)
    requires p in w.jobs && (w.jobs[p].pc.Marked? || w.jobs[p].pc.Cleared?)
    ensures Leads(w, acts, w')
    ensures var x := w.jobs[p];
            w' == w.(jobs := w.jobs[p := x.(pc := Over)], ledger := w.ledger[x.rid := EntryLeft(x.pc.o, w.clock)])
  {
    var x, ws := w.jobs[p], [w];
    ws, acts := Extends([w], [], Work(p, Trip));
    assert ws[|ws| - 1].jobs[p] == x.(pc := Unrecorded(x.pc.o));
    ws, acts := Extends(ws, acts, Work(p, Put(true)));
    w' := ws[|ws| - 1];
    assert w'.jobs == w.jobs[p := x.(pc := Over)];
    PathLeads(ws, acts);
  }

  /** A claim whose answer was lost leaves the post uploading, with nobody publishing it. */
  lemma ALostClaim(w: World, p: nat, rid: Rid)
    requires CanClaim(w, p, rid)
    ensures var w' := Exec(w, ClaimRaises(p, rid));
            && w'.status == w.status[rid := Uploading] && w'.ledger == w.ledger && w'.runs == w.runs
            && p in w'.jobs && w'.jobs[p].pc.Lapsed?
  {
  }

  /** A carousel whose container could not be confided is not published, and counts as refused. */
  lemma AnUnconfidedJobFails(w: World, p: nat, container: string)
    requires p in w.jobs && w.jobs[p].pc.Publishing? && w.jobs[p].carousel
    ensures var x := w.jobs[p];
            Enabled(w, Work(p, Confide(container, false)))
            && Exec(w, Work(p, Confide(container, false))) == w.(jobs := w.jobs[p := x.(pc := Ended(Refused), outcome := Some(Refused))])
  {
  }

  /** A job claims a ready post, confides its container if it has one, and its publishing run ends. */
  lemma JobBegins(w: World, p: nat, rid: Rid, carousel: bool, container: string, o: Outcome) returns (ws: seq<World>, acts: seq<Action>)
    requires CanClaim(w, p, rid)
    ensures Path(ws, acts) && ws[0] == w
    ensures var w' := ws[|ws| - 1];
            && w' == w.(status := w.status[rid := Uploading], ledger := w'.ledger, jobs := w'.jobs, holder := w'.holder, left := w'.left,
                        runs := w.runs + multiset{rid})
            && p in w'.jobs && w'.jobs[p] == Job(rid, carousel, Ended(o), Some(o), carousel)
            && w'.ledger == if carousel then w.ledger[rid := Entry(InFlight, container, "", w.clock, false)] else w.ledger
  {
    ws, acts := JobClaims(w, p, rid, carousel);
    var w1 := ws[|ws| - 1];
    if carousel {
      ws, acts := Extends(ws, acts, Work(p, Confide(container, true)));
      assert ws[|ws| - 1] == w1.(jobs := ws[|ws| - 1].jobs, ledger := w.ledger[rid := Entry(InFlight, container, "", w.clock, false)]);
    }
    assert ws[|ws| - 1].jobs[p] == Job(rid, carousel, Publishing, None, carousel);
    ws, acts := Extends(ws, acts, Work(p, End(o)));
  }

  lemma JobClaims(w: World, p: nat, rid: Rid, carousel: bool) returns (ws: seq<World>, acts: seq<Action>)
    requires CanClaim(w, p, rid)
    ensures Path(ws, acts) && ws[0] == w
    ensures var w' := ws[|ws| - 1];
            && w' == w.(status := w.status[rid := Uploading], jobs := w.jobs[p := Job(rid, carousel, Publishing, None, false)],
                        holder := w'.holder, left := w'.left, runs := w.runs + multiset{rid})
  {
    ws, acts := Extends([w], [], Claim(p, rid, carousel));
  }

  /** An undisturbed job, single or carousel: it claims a ready post, runs once, and leaves the post and
      its entry as its outcome says; a container it confides is forgotten once the outcome is written. */
  lemma AJobRuns(w: World, p: nat, rid: Rid, carousel: bool, container: string, o: Outcome, writes: bool)
    returns (ws: seq<World>, acts: seq<Action>)
    requires CanClaim(w, p, rid)
    ensures Path(ws, acts) && ws[0] == w && Leads(w, acts, ws[|ws| - 1])
    ensures var w' := ws[|ws| - 1];
            && p in w'.jobs && w'.jobs[p].pc.Over? && w'.runs == w.runs + multiset{rid}
            && w'.status == w.status[rid := StatusLeft(o, writes)] && w'.clock == w.clock && w'.rounds == w.rounds
            && w'.ledger == if !writes || o.Unclear? then w.ledger[rid := EntryLeft(o, w.clock)]
                            else if carousel then w.ledger - {rid} else w.ledger
  {
    ws, acts := JobBegins(w, p, rid, carousel, container, o);
    if writes && !o.Unclear? {
      ws, acts := JobRecords(ws, acts, p);
    } else {
      ws, acts := JobConfesses(ws, acts, p);
    }
    PathLeads(ws, acts);
  }

  /** A success that could not be written is made good: half an hour later an undisturbed round declares
      the post published, without publishing it again. */
  lemma ALostWriteIsRepaired(w: World, p: nat, rid: Rid, carousel: bool, container: string, mediaId: string, q: nat) returns (acts: seq<Action>, w': World)
    requires CanClaim(w, p, rid) && q !in w.rounds && mediaId != ""
    ensures Leads(w, acts, w') && w'.status == w.status[rid := Posted] && w'.ledger == w.ledger - {rid}
    ensures w'.runs == w.runs + multiset{rid}
  {
    var ws;
    ws, acts := AJobRuns(w, p, rid, carousel, container, Succeeded(mediaId), false);
    ws, acts := Extends(ws, acts, Tick(1800));
    ws, acts := RoundSettles(ws, acts, q, rid, Posted);
    w' := ws[|ws| - 1];
    assert w'.ledger == w.ledger - {rid};
  }
}
