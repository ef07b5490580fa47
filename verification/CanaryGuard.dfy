/** The canary write budget (modules/common/canary_execution_guard.py) and its one client that writes,
    the single-record exporter (modules/crawlers/source_exporter.py).

    First any number of guards over one table of runs, and any number of exports that ask them; then the
    classes as the source has them.  What an exporter asks for and what it sends is logged in order, so
    that the two can be compared. */
module CanaryGuard {
  import opened Wrappers

  type RunId = string

  datatype Route = Facebook | Dome
  datatype Operation =
    | PostCreate | SourceCreate | SourcePatch | OtherCreate | OtherUpdate | Delete | ImageUpload | InstagramPublish | DmOrComment

  datatype Budget = Budget(route: Route, limits: map<Operation, nat>, record: string) {
    function Limit(op: Operation): nat { if op in limits then limits[op] else 0 }
  }

  function ForFacebook(): Budget { Budget(Facebook, map[PostCreate := 1], "") }
  function ForDome(record: string): Budget { Budget(Dome, map[SourcePatch := 2, PostCreate := 1], record) }

  datatype RunStatus = Running | Completed | Failed
  datatype Run = Run(route: Route, source: string, record: string, status: RunStatus, counts: map<Operation, nat>) {
    function Spent(op: Operation): nat { if op in counts then counts[op] else 0 }
  }

  type Runs = map<RunId, Run>

  datatype Guard = Guard(id: RunId, source: string, budget: Budget, begun: bool)

  // ── the statements ─────────────────────────────────────────────────────────

  /** `live`: safe mode is on and approved for this run id. */
  predicate MayBegin(runs: Runs, g: Guard, live: bool) { live && g.id !in runs }

  function Begun(runs: Runs, g: Guard): Runs {
    runs[g.id := Run(g.budget.route, g.source, g.budget.record, Running, map[])]
  }

  predicate MayWrite(runs: Runs, g: Guard, live: bool, op: Operation, record: string) {
    && live && g.begun
    && (op.SourcePatch? ==> g.budget.record != "" && record == g.budget.record)
    && g.id in runs
    && var run := runs[g.id];
       && run.status.Running? && run.route == g.budget.route && run.source == g.source && run.record == g.budget.record
       && run.Spent(op) + 1 <= g.budget.Limit(op)
  }

  function Spent(runs: Runs, g: Guard, op: Operation): Runs
    requires g.id in runs
  {
    runs[g.id := runs[g.id].(counts := runs[g.id].counts[op := runs[g.id].Spent(op) + 1])]
  }

  predicate MayEnd(runs: Runs, g: Guard, live: bool) { live && g.begun && g.id in runs && runs[g.id].status.Running? }

  function Ended(runs: Runs, g: Guard, status: RunStatus): Runs
    requires g.id in runs
  {
    runs[g.id := runs[g.id].(status := status)]
  }

  // ── any number of guards over one table ────────────────────────────────────

  /** `heard`: whether the caller learns of its success; it does not when the process dies, or the call
      raises, after the commit. */
  datatype Call =
    | Make(g: nat, guard: Guard)
    | Begin(g: nat, live: bool, heard: bool)
    | Authorize(g: nat, live: bool, op: Operation, record: string, heard: bool)
    | End(g: nat, live: bool, status: RunStatus)

  datatype World = World(
    runs: Runs,
    guards: map<nat, Guard>,
    grants: multiset<(RunId, Operation)>,     // permissions given
    begins: multiset<RunId>)                  // begins that came back

  function Init(): World { World(map[], map[], multiset{}, multiset{}) }

  function Step(w: World, c: Call): World {
    match c
    case Make(g, guard) => if g in w.guards then w else w.(guards := w.guards[g := guard.(begun := false)])
    case Begin(g, live, heard) =>
      if g in w.guards && MayBegin(w.runs, w.guards[g], live)
      then w.(runs := Begun(w.runs, w.guards[g]), guards := if heard then w.guards[g := w.guards[g].(begun := true)] else w.guards,
              begins := if heard then w.begins + multiset{w.guards[g].id} else w.begins)
      else w
    case Authorize(g, live, op, record, heard) =>
      if g in w.guards && MayWrite(w.runs, w.guards[g], live, op, record)
      then w.(runs := Spent(w.runs, w.guards[g], op), grants := if heard then w.grants + multiset{(w.guards[g].id, op)} else w.grants)
      else w
    case End(g, live, status) =>
      if g in w.guards && MayEnd(w.runs, w.guards[g], live) && !status.Running?
      then w.(runs := Ended(w.runs, w.guards[g], status))
      else w
  }

  function Play(calls: seq<Call>): World {
    if calls == [] then Init() else Step(Play(calls[..|calls| - 1]), calls[|calls| - 1])
  }

  predicate RunOk(w: World, id: RunId, op: Operation) {
    && w.begins[id] <= (if id in w.runs then 1 else 0)
    && w.grants[(id, op)] <= (if id in w.runs then w.runs[id].Spent(op) else 0)
    && (w.grants[(id, op)] > 0 ==> w.begins[id] == 1)
  }

  predicate BegunBy(w: World, id: RunId, g: nat) { g in w.guards && w.guards[g].begun && w.guards[g].id == id }

  ghost predicate GuardOk(w: World, g: nat) {
    g in w.guards && w.guards[g].begun ==>
      && w.guards[g].id in w.runs
      && (forall op: Operation :: w.runs[w.guards[g].id].Spent(op) <= w.guards[g].budget.Limit(op))
      && (forall h :: BegunBy(w, w.guards[g].id, h) ==> h == g)
  }

  ghost predicate Inv(w: World) {
    && (forall id, op :: RunOk(w, id, op))
    && (forall g :: GuardOk(w, g))
    && (forall id :: w.begins[id] > 0 ==> exists g :: BegunBy(w, id, g))
    && (forall id, g :: BegunBy(w, id, g) ==> w.begins[id] == 1)
  }

  lemma GuardStep(w: World, c: Call, g: nat)
    requires Inv(w)
    ensures GuardOk(Step(w, c), g)
  {
    assert GuardOk(w, g);
    if c.Begin? {
      GuardAfterBegin(w, c.g, c.live, c.heard, g);
    } else {
      var w' := Step(w, c);
      assert forall id, k :: BegunBy(w', id, k) ==> BegunBy(w, id, k);
      if c.Authorize? && c.g in w.guards && w.guards[c.g].begun {
        assert GuardOk(w, c.g) && BegunBy(w, w.guards[c.g].id, c.g);
      }
    }
  }

  lemma GuardAfterBegin(w: World, h: nat, live: bool, heard: bool, g: nat)
    requires Inv(w)
    ensures GuardOk(Step(w, Begin(h, live, heard)), g)
  {
    var w' := Step(w, Begin(h, live, heard));
    assert GuardOk(w, g) && GuardOk(w, h);
    if g in w.guards && w'.guards[g].begun {
      forall k | BegunBy(w', w.guards[g].id, k) ensures k == g {
        assert GuardOk(w, k);
        assert BegunBy(w, w.guards[g].id, k) || k == h;
      }
    }
  }

  lemma CoverStep(w: World, c: Call, id: RunId)
    requires Inv(w) && Step(w, c).begins[id] > 0
    ensures exists g :: BegunBy(Step(w, c), id, g)
  {
    if w.begins[id] > 0 {
      var g :| BegunBy(w, id, g);
      assert BegunBy(Step(w, c), id, g);
    } else {
      assert BegunBy(Step(w, c), id, c.g);
    }
  }

  lemma RunStep(w: World, c: Call, id: RunId, op: Operation)
    requires Inv(w)
    ensures RunOk(Step(w, c), id, op)
  {
    assert RunOk(w, id, op);
    if c.Authorize? && c.g in w.guards && w.guards[c.g].begun {
      AuthorizedRun(w, c, id, op);
    }
  }

  lemma AuthorizedRun(w: World, c: Call, id: RunId, op: Operation)
    requires Inv(w) && c.Authorize? && c.g in w.guards && BegunBy(w, w.guards[c.g].id, c.g)
    ensures RunOk(Step(w, c), id, op)
  {
    assert RunOk(w, id, op) && w.begins[w.guards[c.g].id] == 1;
  }

  lemma BegunStep(w: World, c: Call, id: RunId, g: nat)
    requires Inv(w) && BegunBy(Step(w, c), id, g)
    ensures Step(w, c).begins[id] == 1
  {
    assert RunOk(w, id, PostCreate);
    if BegunBy(w, id, g) {
      assert GuardOk(w, g);
    }
  }

  lemma InvStep(w: World, c: Call)
    requires Inv(w)
    ensures Inv(Step(w, c))
  {
    forall id, op ensures RunOk(Step(w, c), id, op) {
      RunStep(w, c, id, op);
    }
    forall g ensures GuardOk(Step(w, c), g) {
      GuardStep(w, c, g);
    }
    forall id | Step(w, c).begins[id] > 0 ensures exists g :: BegunBy(Step(w, c), id, g) {
      CoverStep(w, c, id);
    }
    forall id, g | BegunBy(Step(w, c), id, g) ensures Step(w, c).begins[id] == 1 {
      BegunStep(w, c, id, g);
    }
  }

  lemma {:induction false} InvPlay(calls: seq<Call>)
    ensures Inv(Play(calls))
  {
    if calls != [] {
      InvPlay(calls[..|calls| - 1]);
      InvStep(Play(calls[..|calls| - 1]), calls[|calls| - 1]);
    }
  }

  /** Over any calls by any guards: a run id is begun at most once, only the guard that began it is ever
      given permission, and never more often than its budget says. */
  lemma BudgetHolds(calls: seq<Call>, id: RunId, op: Operation)
    ensures var w := Play(calls);
            && w.begins[id] <= 1
            && (w.grants[(id, op)] > 0 ==> w.begins[id] == 1 && exists g :: BegunBy(w, id, g))
            && (forall g :: BegunBy(w, id, g) ==> w.grants[(id, op)] <= w.guards[g].budget.Limit(op))
  {
    InvPlay(calls);
    GrantsAreBounded(Play(calls), id, op);
  }

  lemma GrantsAreBounded(w: World, id: RunId, op: Operation)
    requires Inv(w)
    ensures w.begins[id] <= 1 && (w.grants[(id, op)] > 0 ==> w.begins[id] == 1 && exists g :: BegunBy(w, id, g))
    ensures forall g :: BegunBy(w, id, g) ==> w.grants[(id, op)] <= w.guards[g].budget.Limit(op)
  {
    assert RunOk(w, id, op);
    forall g | BegunBy(w, id, g) ensures w.grants[(id, op)] <= w.guards[g].budget.Limit(op) {
      assert GuardOk(w, g);
    }
  }

  /** The guard that began a run can end it while it runs, in a live context, and nobody else can. */
  lemma EndsExactly(w: World, g: nat, live: bool, status: RunStatus, id: RunId)
    requires Inv(w) && id in w.runs && w.runs[id].status.Running? && !status.Running? && g in w.guards && w.guards[g].id == id
    ensures Step(w, End(g, live, status)) == if live && w.guards[g].begun then w.(runs := w.runs[id := w.runs[id].(status := status)]) else w
    ensures forall h :: BegunBy(w, id, h) && BegunBy(w, id, g) ==> h == g
  {
    assert GuardOk(w, g);
  }

  /** A run that has ended gives no more permissions, and cannot be begun again. */
  lemma {:induction false} EndedForGood(w: World, calls: seq<Call>, id: RunId, op: Operation) returns (w': World)
    requires id in w.runs && !w.runs[id].status.Running?
    ensures id in w'.runs && w'.runs[id] == w.runs[id] && w'.grants[(id, op)] == w.grants[(id, op)] && w'.begins[id] == w.begins[id]
    ensures w' == From(w, calls)
  {
    if calls == [] {
      w' := w;
    } else {
      var v := EndedForGood(w, calls[..|calls| - 1], id, op);
      w' := Step(v, calls[|calls| - 1]);
    }
  }

  function From(w: World, calls: seq<Call>): World {
    if calls == [] then w else Step(From(w, calls[..|calls| - 1]), calls[|calls| - 1])
  }

  // ── and all of the budget can be had ───────────────────────────────────────

  function Asking(op: Operation, record: string, n: nat): seq<Call> {
    seq(n, i => Authorize(0, true, op, record, true))
  }

  function Smaller(a: nat, b: nat): nat { if a < b then a else b }

  /** Guard 0 alone has a run under way, and has been given `n` permissions for `op`. */
  ghost predicate Given(w: World, guard: Guard, op: Operation, n: nat) {
    && w.guards == map[0 := guard.(begun := true)] && w.runs.Keys == {guard.id}
    && w.runs[guard.id] == Run(guard.budget.route, guard.source, guard.budget.record, Running, w.runs[guard.id].counts)
    && w.grants[(guard.id, op)] == n == w.runs[guard.id].Spent(op)
  }

  lemma BeginsAlone(guard: Guard, op: Operation)
    ensures Given(Play([Make(0, guard), Begin(0, true, true)]), guard, op, 0)
  {
    var start := [Make(0, guard), Begin(0, true, true)];
    assert start[..1] == [Make(0, guard)] && [Make(0, guard)][..0] == [];
    assert Play([Make(0, guard)]) == Step(Init(), Make(0, guard));
  }

  lemma AsksOnce(w: World, guard: Guard, op: Operation, record: string, n: nat)
    requires Given(w, guard, op, n) && (op.SourcePatch? ==> record == guard.budget.record != "")
    ensures Given(Step(w, Authorize(0, true, op, record, true)), guard, op, if n < guard.budget.Limit(op) then n + 1 else n)
  {
  }

  /** A guard that began its run gets exactly what its budget says: of `n` permissions it asks for, as many
      as the limit allows, and not one more; an operation without a limit gets none. */
  lemma {:induction false} BudgetIsThere(guard: Guard, op: Operation, record: string, n: nat)
    requires op.SourcePatch? ==> record == guard.budget.record != ""
    ensures var w := Play([Make(0, guard), Begin(0, true, true)] + Asking(op, record, n));
            Given(w, guard, op, Smaller(n, guard.budget.Limit(op)))
  {
    var start := [Make(0, guard), Begin(0, true, true)];
    var calls := start + Asking(op, record, n);
    if n == 0 {
      assert calls == start;
      BeginsAlone(guard, op);
    } else {
      assert calls[..|calls| - 1] == start + Asking(op, record, n - 1);
      BudgetIsThere(guard, op, record, n - 1);
      AsksOnce(Play(calls[..|calls| - 1]), guard, op, record, Smaller(n - 1, guard.budget.Limit(op)));
    }
  }

  // ── any number of exports through them ─────────────────────────────────────

  /** Where an export stands; ExportExact below goes through the same. */
  datatype ExportPc =
    | Fresh | MayClaim | HasClaimed | MayCreate | HasCreated | MayFinish
    | Failing | MayReject
    | Closed

  datatype Export = Export(g: nat, id: RunId, record: string, pc: ExportPc)

  /** `asked`: source patches and post creations requested, under the run id of the guard. */
  datatype Office = Office(w: World, exports: map<nat, Export>, asked: multiset<(RunId, Operation)>)

  datatype Move =
    | Guarded(c: Call)                             // anything anyone does with a guard
    | Open(x: nat, g: nat, record: string)
    | Ask(x: nat, live: bool, heard: bool)         // authorize the next write
    | Request(x: nat, ok: bool)                    // and make it; it may raise
    | Abort(x: nat)

  function Needs(pc: ExportPc): Option<Operation> {
    match pc
    case Fresh => Some(SourcePatch)
    case HasClaimed => Some(PostCreate)
    case HasCreated => Some(SourcePatch)
    case Failing => Some(SourcePatch)
    case _ => None
  }

  function Allowed(pc: ExportPc): Option<Operation> {
    match pc
    case MayClaim => Some(SourcePatch)
    case MayCreate => Some(PostCreate)
    case MayFinish => Some(SourcePatch)
    case MayReject => Some(SourcePatch)
    case _ => None
  }

  function Granted(pc: ExportPc): ExportPc
    requires Needs(pc).Some?
  {
    match pc
    case Fresh => MayClaim
    case HasClaimed => MayCreate
    case HasCreated => MayFinish
    case Failing => MayReject
  }

  /** A refusal raises; only between the claim and the final patch does the export try to reject the item. */
  function Refused(pc: ExportPc): ExportPc { if pc.HasClaimed? || pc.HasCreated? then Failing else ExportPc.Closed }

  function Went(pc: ExportPc, ok: bool): ExportPc {
    if pc.MayClaim? then (if ok then HasClaimed else Failing)
    else if pc.MayCreate? then (if ok then HasCreated else Failing)
    else ExportPc.Closed
  }

  predicate CanMove(o: Office, m: Move) {
    match m
    case Guarded(_) => true
    case Open(x, g, _) => x !in o.exports && g in o.w.guards
    case Ask(x, _, _) => x in o.exports && o.exports[x].g in o.w.guards && Needs(o.exports[x].pc).Some?
    case Request(x, _) => x in o.exports && Allowed(o.exports[x].pc).Some?
    case Abort(x) => x in o.exports
  }

  function Moves(o: Office, m: Move): Office
    requires CanMove(o, m)
  {
    match m
    case Guarded(c) => o.(w := Step(o.w, c))
    case Open(x, g, record) => o.(exports := o.exports[x := Export(g, o.w.guards[g].id, record, Fresh)])
    case Ask(x, live, heard) =>
      var e, op := o.exports[x], Needs(o.exports[x].pc).value;
      var record := if op.SourcePatch? then e.record else "";
      var yes := heard && MayWrite(o.w.runs, o.w.guards[e.g], live, op, record);
      o.(w := Step(o.w, Authorize(e.g, live, op, record, heard)), exports := o.exports[x := e.(pc := if yes then Granted(e.pc) else Refused(e.pc))])
    case Request(x, ok) =>
      var e := o.exports[x];
      o.(asked := o.asked + multiset{(e.id, Allowed(e.pc).value)}, exports := o.exports[x := e.(pc := Went(e.pc, ok))])
    case Abort(x) => o.(exports := o.exports[x := o.exports[x].(pc := ExportPc.Closed)])
  }

  ghost predicate Works(o: Office, moves: seq<Move>, o': Office)
    decreases |moves|
  {
    if moves == [] then o' == o else CanMove(o, moves[0]) && Works(Moves(o, moves[0]), moves[1..], o')
  }

  predicate Holds(e: Export, id: RunId, op: Operation) { e.id == id && Allowed(e.pc) == Some(op) }

  /** The exports that hold a permission they have not used. */
  function Holders(exports: map<nat, Export>, id: RunId, op: Operation): set<nat> {
    set x | x in exports && Holds(exports[x], id, op)
  }

  ghost predicate Paid(o: Office, id: RunId, op: Operation) {
    o.asked[(id, op)] + |Holders(o.exports, id, op)| <= o.w.grants[(id, op)]
  }

  ghost predicate OfficeInv(o: Office) {
    && Inv(o.w)
    && (forall x :: x in o.exports ==> o.exports[x].g in o.w.guards && o.w.guards[o.exports[x].g].id == o.exports[x].id)
    && (forall id, op :: Paid(o, id, op))
  }

  /** Guards stay, with their run id and budget, and permissions are never taken back. */
  lemma GuardsStay(w: World, c: Call)
    ensures forall g :: g in w.guards ==>
              g in Step(w, c).guards && Step(w, c).guards[g].id == w.guards[g].id && Step(w, c).guards[g].budget == w.guards[g].budget
    ensures w.grants <= Step(w, c).grants
  {
  }

  /** One export changes: the holders change by it alone. */
  lemma HoldersChange(exports: map<nat, Export>, x: nat, e: Export, id: RunId, op: Operation)
    ensures var was, now := Holders(exports, id, op), Holders(exports[x := e], id, op);
            |now| == |was| - (if x in exports && Holds(exports[x], id, op) then 1 else 0) + (if Holds(e, id, op) then 1 else 0)
  {
    var was, now := Holders(exports, id, op), Holders(exports[x := e], id, op);
    assert now == if Holds(e, id, op) then (was - {x}) + {x} else was - {x};
    assert x in was <==> x in exports && Holds(exports[x], id, op);
  }

  /** A permission asked for and given adds a holder; used, it becomes a request. */
  lemma ExportKeeps(o: Office, m: Move, id: RunId, op: Operation)
    requires CanMove(o, m) && Paid(o, id, op) && (m.Ask? ==> o.w.guards[o.exports[m.x].g].id == o.exports[m.x].id)
    ensures Paid(Moves(o, m), id, op)
  {
    match m
    case Guarded(c) => GuardsStay(o.w, c);
    case Open(x, g, record) => HoldersChange(o.exports, x, Export(g, o.w.guards[g].id, record, Fresh), id, op);
    case Ask(x, live, heard) => AskKeeps(o, x, live, heard, id, op);
    case Request(x, ok) => HoldersChange(o.exports, x, o.exports[x].(pc := Went(o.exports[x].pc, ok)), id, op);
    case Abort(x) => HoldersChange(o.exports, x, o.exports[x].(pc := ExportPc.Closed), id, op);
  }

  lemma AskKeeps(o: Office, x: nat, live: bool, heard: bool, id: RunId, op: Operation)
    requires CanMove(o, Ask(x, live, heard)) && Paid(o, id, op) && o.w.guards[o.exports[x].g].id == o.exports[x].id
    ensures Paid(Moves(o, Ask(x, live, heard)), id, op)
  {
    var e, need := o.exports[x], Needs(o.exports[x].pc).value;
    var record := if need.SourcePatch? then e.record else "";
    var yes := heard && MayWrite(o.w.runs, o.w.guards[e.g], live, need, record);
    var pc := if yes then Granted(e.pc) else Refused(e.pc);
    HoldersChange(o.exports, x, e.(pc := pc), id, op);
    AskGrants(o.w, e.g, live, need, record, heard);
    assert yes ==> Allowed(Granted(e.pc)) == Some(need);
  }

  /** The call adds exactly the permission that comes back. */
  lemma AskGrants(w: World, g: nat, live: bool, op: Operation, record: string, heard: bool)
    requires g in w.guards
    ensures Step(w, Authorize(g, live, op, record, heard)).grants
            == if heard && MayWrite(w.runs, w.guards[g], live, op, record) then w.grants + multiset{(w.guards[g].id, op)} else w.grants
  {
  }

  lemma OfficeStep(o: Office, m: Move)
    requires OfficeInv(o) && CanMove(o, m)
    ensures OfficeInv(Moves(o, m))
  {
    if m.Guarded? {
      InvStep(o.w, m.c);
      GuardsStay(o.w, m.c);
    } else if m.Ask? {
      var e, need := o.exports[m.x], Needs(o.exports[m.x].pc).value;
      var c := Authorize(e.g, m.live, need, if need.SourcePatch? then e.record else "", m.heard);
      InvStep(o.w, c);
      GuardsStay(o.w, c);
    }
    forall id, op ensures Paid(Moves(o, m), id, op) {
      assert Paid(o, id, op);
      ExportKeeps(o, m, id, op);
    }
  }

  lemma {:induction false} OfficeRun(o: Office, moves: seq<Move>, o': Office)
    requires OfficeInv(o) && Works(o, moves, o')
    ensures OfficeInv(o')
    decreases |moves|
  {
    if moves != [] {
      OfficeStep(o, moves[0]);
      OfficeRun(Moves(o, moves[0]), moves[1..], o');
    }
  }

  /** Any number of exports, by any guards, interleaved in any way and breaking off anywhere: the requests
      made under a run id stay within the budget of the one guard that began it; for an export run, two
      source patches and one post in all. */
  lemma ExportsShareOneBudget(moves: seq<Move>, o: Office, id: RunId)
    requires Works(Office(Init(), map[], multiset{}), moves, o)
    ensures forall op :: o.asked[(id, op)] > 0 ==> exists g :: BegunBy(o.w, id, g)
    ensures forall op, g :: BegunBy(o.w, id, g) ==> o.asked[(id, op)] <= o.w.guards[g].budget.Limit(op)
    ensures forall g :: BegunBy(o.w, id, g) && o.w.guards[g].budget == ForDome(o.w.guards[g].budget.record) ==>
                          o.asked[(id, SourcePatch)] <= 2 && o.asked[(id, PostCreate)] <= 1
  {
    OfficeRun(Office(Init(), map[], multiset{}), moves, o);
    forall op ensures o.asked[(id, op)] <= o.w.grants[(id, op)] {
      assert Paid(o, id, op);
    }
    forall op: Operation {
      GrantsAreBounded(o.w, id, op);
    }
  }

  // ── the guard, and the exporter ────────────────────────────────────────────

  /** The shared table. */
  class Table {
    var runs: Runs
    constructor () ensures runs == map[] { runs := map[]; }
  }

  class ExecutionGuard {
    const table: Table
    const id: RunId
    const source: string
    const budget: Budget
    var begun: bool

    constructor (table: Table, id: RunId, source: string, budget: Budget)
      ensures this.table == table && Value() == Guard(id, source, budget, false)
    {
      this.table, this.id, this.source, this.budget, this.begun := table, id, source, budget, false;
    }

    function Value(): Guard reads this { Guard(id, source, budget, begun) }

    method Start(live: bool) returns (ok: bool)
      modifies this, table
      ensures ok <==> live && id !in old(table.runs)
      ensures ok ==> table.runs == old(table.runs)[id := Run(budget.route, source, budget.record, Running, map[])]
      ensures if ok then table.runs == Begun(old(table.runs), old(Value())) && begun else table.runs == old(table.runs) && begun == old(begun)
    {
      ok := live && id !in table.runs;
      if ok {
        table.runs := table.runs[id := Run(budget.route, source, budget.record, Running, map[])];
        begun := true;
      }
    }

    /** complete and fail. */
    method MarkTerminal(live: bool, status: RunStatus) returns (ok: bool)
      requires !status.Running?
      modifies table
      ensures ok == MayEnd(old(table.runs), Value(), live)
      ensures ok <==> live && begun && id in old(table.runs) && old(table.runs)[id].status.Running?
      ensures table.runs == if ok then Ended(old(table.runs), Value(), status) else old(table.runs)
      ensures ok ==> table.runs == old(table.runs)[id := old(table.runs)[id].(status := status)]
    {
      ok := live && begun && id in table.runs && table.runs[id].status.Running?;
      if ok {
        table.runs := table.runs[id := table.runs[id].(status := status)];
      }
    }

    /** The budget is spent before the write it allows. */
    method AuthorizeWrite(live: bool, op: Operation, record: string) returns (ok: bool)
      modifies table
      ensures ok == MayWrite(old(table.runs), Value(), live, op, record)
      ensures ok ==> live && begun && id in old(table.runs) && id in table.runs && old(table.runs)[id].status.Running?
                     && table.runs[id].Spent(op) == old(table.runs)[id].Spent(op) + 1 <= budget.Limit(op)
      ensures ok && op.SourcePatch? ==> budget.record != "" && record == budget.record
      ensures ok ==> var r := old(table.runs)[id]; r.route == budget.route && r.source == source && r.record == budget.record
      ensures table.runs == if ok then Spent(old(table.runs), Value(), op) else old(table.runs)
    {
      if !live || !begun || (op.SourcePatch? && (budget.record == "" || record != budget.record)) || id !in table.runs {
        return false;
      }
      var run := table.runs[id];
      if !run.status.Running? || run.route != budget.route || run.source != source || run.record != budget.record {
        return false;
      }
      var next := run.Spent(op) + 1;
      if next > budget.Limit(op) {
        return false;
      }
      table.runs := table.runs[id := run.(counts := run.counts[op := next])];
      return true;
    }
  }

  datatype ItemStatus = Exported | Rejected
  datatype Request = Claim | CreatePost | Finish(status: ItemStatus)

  /** What an export does: ask for a permission, or send a request, each with the answer it got. */
  datatype Event = Asked(op: Operation, live: bool, granted: bool) | Sent(r: Request, ok: bool)

  function RequestOf(pc: ExportPc): Option<Request> {
    match pc
    case MayClaim => Some(Claim)
    case MayCreate => Some(CreatePost)
    case MayFinish => Some(Finish(Exported))
    case MayReject => Some(Finish(Rejected))
    case _ => None
  }

  /** Where an export stands after `ev`; None if it does not go that way. */
  function PcAfter(ev: seq<Event>): Option<ExportPc> {
    if ev == [] then Some(Fresh)
    else
      match PcAfter(ev[..|ev| - 1])
      case None => None
      case Some(pc) =>
        match ev[|ev| - 1]
        case Asked(op, _, granted) => if Needs(pc) == Some(op) then Some(if granted then Granted(pc) else Refused(pc)) else None
        case Sent(r, ok) => if RequestOf(pc) == Some(r) then Some(Went(pc, ok)) else None
  }

  /** The table after the permissions of `ev`, and whether each was given just when the guard gives it. */
  function RunsAfter(runs: Runs, g: Guard, ev: seq<Event>): Runs {
    if ev == [] then runs
    else
      var before, last := RunsAfter(runs, g, ev[..|ev| - 1]), ev[|ev| - 1];
      if last.Asked? && last.granted && g.id in before then Spent(before, g, last.op) else before
  }

  predicate Honest(runs: Runs, g: Guard, record: string, ev: seq<Event>) {
    ev == [] || (
      var front, last := ev[..|ev| - 1], ev[|ev| - 1];
      Honest(runs, g, record, front)
      && (last.Asked? ==> last.granted == MayWrite(RunsAfter(runs, g, front), g, last.live, last.op, if last.op.SourcePatch? then record else "")))
  }

  function Requests(ev: seq<Event>): seq<Request> {
    if ev == [] then [] else Requests(ev[..|ev| - 1]) + if ev[|ev| - 1].Sent? then [ev[|ev| - 1].r] else []
  }

  /** Permissions given for `op`. */
  function Grants(ev: seq<Event>, op: Operation): nat {
    if ev == [] then 0 else Grants(ev[..|ev| - 1], op) + if ev[|ev| - 1].Asked? && ev[|ev| - 1].granted && ev[|ev| - 1].op == op then 1 else 0
  }

  function Patches(log: seq<Request>): nat {
    if log == [] then 0 else Patches(log[..|log| - 1]) + if log[|log| - 1].CreatePost? then 0 else 1
  }

  /** The requests of an export, one case for every place it can break off. */
  predicate Exports(log: seq<Request>, ok: bool) {
    || (log == [] && !ok)
    || (log == [Claim] && !ok)
    || (log == [Claim, Finish(Rejected)] && !ok)
    || (log == [Claim, CreatePost] && !ok)
    || (log == [Claim, CreatePost, Finish(Rejected)] && !ok)
    || log == [Claim, CreatePost, Finish(Exported)]
  }

  /** What an export that stands at `pc` has requested. */
  predicate Standing(pc: ExportPc, log: seq<Request>, ok: bool) {
    match pc
    case Fresh => log == [] && !ok
    case MayClaim => log == [] && !ok
    case HasClaimed => log == [Claim] && !ok
    case MayCreate => log == [Claim] && !ok
    case HasCreated => log == [Claim, CreatePost] && !ok
    case MayFinish => log == [Claim, CreatePost] && !ok
    case Failing => (log == [Claim] || log == [Claim, CreatePost]) && !ok
    case MayReject => (log == [Claim] || log == [Claim, CreatePost]) && !ok
    case Closed => Exports(log, ok)
  }

  predicate Succeeded(ev: seq<Event>) { ev != [] && ev[|ev| - 1] == Sent(Finish(Exported), true) }

  lemma PatchesSnoc(log: seq<Request>, r: Request)
    ensures Patches(log + [r]) == Patches(log) + if r.CreatePost? then 0 else 1
  {
    assert (log + [r])[..|log|] == log;
  }

  lemma StandsAfterAsking(pc: ExportPc, log: seq<Request>, granted: bool)
    requires Needs(pc).Some? && Standing(pc, log, false)
    ensures Standing(if granted then Granted(pc) else Refused(pc), log, false)
  {
  }

  lemma StandsAfterSending(pc: ExportPc, log: seq<Request>, ok: bool)
    requires RequestOf(pc).Some? && Standing(pc, log, false)
    ensures Standing(Went(pc, ok), log + [RequestOf(pc).value], pc.MayFinish? && ok)
  {
    var log' := log + [RequestOf(pc).value];
    match pc
    case MayClaim => assert log' == [Claim];
    case MayCreate => assert log' == [Claim, CreatePost];
    case MayFinish => assert log' == [Claim, CreatePost, Finish(Exported)];
    case MayReject => assert log' == [Claim, Finish(Rejected)] || log' == [Claim, CreatePost, Finish(Rejected)];
  }

  lemma StandingFails(pc: ExportPc, log: seq<Request>, ok: bool)
    requires Standing(pc, log, ok) && !pc.Closed?
    ensures !ok
  {
  }

  /** An export makes one of six sequences of requests ... */
  lemma {:induction false} ExportStands(ev: seq<Event>)
    requires PcAfter(ev).Some?
    ensures Standing(PcAfter(ev).value, Requests(ev), Succeeded(ev))
  {
    if ev != [] {
      var front, last := ev[..|ev| - 1], ev[|ev| - 1];
      var pc := PcAfter(front).value;
      ExportStands(front);
      StandingFails(pc, Requests(front), Succeeded(front));
      if last.Asked? {
        StandsAfterAsking(pc, Requests(front), last.granted);
      } else {
        StandsAfterSending(pc, Requests(front), last.ok);
      }
    }
  }

  predicate PaidFor(pc: ExportPc, log: seq<Request>, patches: nat, posts: nat) {
    && Patches(log) + (if Allowed(pc) == Some(SourcePatch) then 1 else 0) <= patches
    && |log| - Patches(log) + (if Allowed(pc) == Some(PostCreate) then 1 else 0) <= posts
  }

  lemma PaidAfterAsking(pc: ExportPc, log: seq<Request>, patches: nat, posts: nat, granted: bool)
    requires Needs(pc).Some? && PaidFor(pc, log, patches, posts)
    ensures PaidFor(if granted then Granted(pc) else Refused(pc), log,
                    patches + (if granted && Needs(pc) == Some(SourcePatch) then 1 else 0), posts + (if granted && Needs(pc) == Some(PostCreate) then 1 else 0))
  {
  }

  lemma PaidAfterSending(pc: ExportPc, log: seq<Request>, patches: nat, posts: nat, ok: bool)
    requires RequestOf(pc).Some? && PaidFor(pc, log, patches, posts)
    ensures PaidFor(Went(pc, ok), log + [RequestOf(pc).value], patches, posts)
  {
    PatchesSnoc(log, RequestOf(pc).value);
  }

  /** ... each paid for by permissions given before. */
  lemma {:induction false} ExportIsPaidFor(ev: seq<Event>)
    requires PcAfter(ev).Some?
    ensures PaidFor(PcAfter(ev).value, Requests(ev), Grants(ev, SourcePatch), Grants(ev, PostCreate))
  {
    if ev == [] {
      assert Patches(Requests(ev)) == 0;
    } else {
      var front, last := ev[..|ev| - 1], ev[|ev| - 1];
      var pc, log := PcAfter(front).value, Requests(front);
      ExportIsPaidFor(front);
      if last.Asked? {
        PaidAfterAsking(pc, log, Grants(front, SourcePatch), Grants(front, PostCreate), last.granted);
        assert Requests(ev) == log && Needs(pc) == Some(last.op);
      } else {
        PaidAfterSending(pc, log, Grants(front, SourcePatch), Grants(front, PostCreate), last.ok);
      }
    }
  }

  lemma SixWays(log: seq<Request>, ok: bool)
    requires Exports(log, ok)
    ensures Patches(log) <= 2 && |log| - Patches(log) <= 1
    ensures Finish(Exported) in log ==> CreatePost in log && Finish(Rejected) !in log
    ensures ok ==> Finish(Exported) in log
  {
    assert Patches([Claim]) == 1;
    assert [Claim, CreatePost][..1] == [Claim];
    assert [Claim, Finish(Rejected)][..1] == [Claim];
    assert [Claim, CreatePost, Finish(Rejected)][..2] == [Claim, CreatePost];
    assert [Claim, CreatePost, Finish(Exported)][..2] == [Claim, CreatePost];
  }

  /** At most two source patches and one post, whatever raises; the item is declared exported only after
      the post was created, and never both exported and rejected; and it counts as exported only if that
      last request went well. */
  lemma ExportIsBounded(ev: seq<Event>)
    requires PcAfter(ev) == Some(ExportPc.Closed)
    ensures var log := Requests(ev);
            && Exports(log, Succeeded(ev)) && Patches(log) <= 2 && |log| - Patches(log) <= 1
            && (Finish(Exported) in log ==> CreatePost in log && Finish(Rejected) !in log)
            && (Succeeded(ev) ==> Finish(Exported) in log)
            && Patches(log) <= Grants(ev, SourcePatch) && |log| - Patches(log) <= Grants(ev, PostCreate)
  {
    ExportStands(ev);
    ExportIsPaidFor(ev);
    SixWays(Requests(ev), Succeeded(ev));
  }

  /** Nothing stands in the way: the context is live and every request goes well. */
  predicate Smooth(ev: seq<Event>) { forall i | 0 <= i < |ev| :: if ev[i].Asked? then ev[i].live else ev[i].ok }

  /** A guard whose run has all of an export's budget left. */
  predicate Ample(runs: Runs, g: Guard, record: string) {
    && g.begun && g.budget == ForDome(record) && record != "" && g.id in runs
    && runs[g.id] == Run(Dome, g.source, record, Running, map[])
  }

  /** How many source patches and posts are paid for at a point of a smooth export. */
  function PaidAt(pc: ExportPc): (nat, nat) {
    match pc
    case Fresh => (0, 0)
    case MayClaim => (1, 0)
    case HasClaimed => (1, 0)
    case MayCreate => (1, 1)
    case HasCreated => (1, 1)
    case _ => (2, 1)
  }

  lemma {:induction false} SmoothStands(runs: Runs, g: Guard, record: string, ev: seq<Event>)
    requires Ample(runs, g, record) && PcAfter(ev).Some? && Honest(runs, g, record, ev) && Smooth(ev)
    ensures var pc, now := PcAfter(ev).value, RunsAfter(runs, g, ev);
            && !pc.Failing? && !pc.MayReject? && g.id in now && now[g.id] == runs[g.id].(counts := now[g.id].counts)
            && now[g.id].Spent(SourcePatch) == PaidAt(pc).0 && now[g.id].Spent(PostCreate) == PaidAt(pc).1
            && (pc.Closed? ==> Succeeded(ev))
  {
    if ev != [] {
      var front, last := ev[..|ev| - 1], ev[|ev| - 1];
      assert forall i | 0 <= i < |front| :: front[i] == ev[i];
      SmoothStands(runs, g, record, front);
      assert last == ev[|ev| - 1];
    }
  }

  /** With its budget untouched, and nothing going wrong, an export claims, creates and finishes. */
  lemma SmoothExportSucceeds(runs: Runs, g: Guard, record: string, ev: seq<Event>)
    requires Ample(runs, g, record) && PcAfter(ev) == Some(ExportPc.Closed) && Honest(runs, g, record, ev) && Smooth(ev)
    ensures Succeeded(ev) && Requests(ev) == [Claim, CreatePost, Finish(Exported)]
  {
    SmoothStands(runs, g, record, ev);
    ExportStands(ev);
  }

  lemma AskedNext(ev: seq<Event>, op: Operation, live: bool, granted: bool)
    requires PcAfter(ev).Some? && Needs(PcAfter(ev).value) == Some(op)
    ensures PcAfter(ev + [Asked(op, live, granted)]) == Some(if granted then Granted(PcAfter(ev).value) else Refused(PcAfter(ev).value))
  {
    assert (ev + [Asked(op, live, granted)])[..|ev|] == ev;
  }

  lemma SentNext(ev: seq<Event>, r: Request, ok: bool)
    requires PcAfter(ev).Some? && RequestOf(PcAfter(ev).value) == Some(r)
    ensures PcAfter(ev + [Sent(r, ok)]) == Some(Went(PcAfter(ev).value, ok))
    ensures Succeeded(ev + [Sent(r, ok)]) <==> r == Finish(Exported) && ok
  {
    assert (ev + [Sent(r, ok)])[..|ev|] == ev;
  }

  /** The events of an export so far, and the table they leave. */
  ghost predicate Told(was: Runs, now: Runs, g: Guard, record: string, ev: seq<Event>, pc: ExportPc) {
    now == RunsAfter(was, g, ev) && Honest(was, g, record, ev) && PcAfter(ev) == Some(pc)
  }

  class Exporter {
    /** A request to Airtable; it may raise, whether or not it took effect. */
    method Send(r: Request, ghost was: Runs, ghost now: Runs, ghost g: Guard, ghost record: string, ghost ev: seq<Event>, ghost pc: ExportPc)
      returns (ok: bool, ghost ev': seq<Event>)
      requires Told(was, now, g, record, ev, pc) && RequestOf(pc) == Some(r)
      ensures ev' == ev + [Sent(r, ok)] && Told(was, now, g, record, ev', Went(pc, ok))
      ensures Succeeded(ev') <==> r == Finish(Exported) && ok
    {
      ok := *;
      ev' := ev + [Sent(r, ok)];
      SentNext(ev, r, ok);
      assert ev'[..|ev|] == ev;
    }

    /** Safe mode, as it is at this moment, and the answer of the guard. */
    method Ask(guard: ExecutionGuard, op: Operation, record: string, ghost was: Runs, ghost item: string, ghost ev: seq<Event>, ghost pc: ExportPc)
      returns (granted: bool, ghost ev': seq<Event>)
      requires Told(was, guard.table.runs, guard.Value(), item, ev, pc) && Needs(pc) == Some(op)
      requires record == if op.SourcePatch? then item else ""
      modifies guard.table
      ensures Told(was, guard.table.runs, guard.Value(), item, ev', if granted then Granted(pc) else Refused(pc))
      ensures !Succeeded(ev')
    {
      var live := *;
      granted := guard.AuthorizeWrite(live, op, record);
      ev' := ev + [Asked(op, live, granted)];
      AskedNext(ev, op, live, granted);
      assert ev'[..|ev|] == ev;
    }

    /** An ineligible item is left alone; otherwise the export goes its way to the end, asking the guard
        before each write. */
    method ExportExact(guard: ExecutionGuard, record: string, eligible: bool) returns (ok: bool, ghost ev: seq<Event>)
      modifies guard.table
      ensures !eligible ==> ev == [] && guard.table.runs == old(guard.table.runs)
      ensures eligible ==> Told(old(guard.table.runs), guard.table.runs, guard.Value(), record, ev, ExportPc.Closed)
      ensures ok == Succeeded(ev)
    {
      ev, ok := [], false;
      if !eligible {
        return;
      }
      ghost var was := guard.table.runs;
      var first, went := false, false;
      first, ev := Ask(guard, SourcePatch, record, was, record, ev, Fresh);
      if !first {
        return;
      }
      went, ev := Send(Claim, was, guard.table.runs, guard.Value(), record, ev, MayClaim);
      var final := false;
      if went {
        ok, final, ev := CreateAndFinish(guard, record, was, ev);
      }
      if !ok && !final {
        ev := TryReject(guard, record, was, ev);
      }
    }

    /** The one attempt to close the item after a failure. */
    method TryReject(guard: ExecutionGuard, record: string, ghost was: Runs, ghost ev: seq<Event>) returns (ghost ev': seq<Event>)
      requires Told(was, guard.table.runs, guard.Value(), record, ev, Failing)
      modifies guard.table
      ensures Told(was, guard.table.runs, guard.Value(), record, ev', ExportPc.Closed) && !Succeeded(ev')
    {
      ev' := ev;
      var may, rejected := false, false;
      may, ev' := Ask(guard, SourcePatch, record, was, record, ev', Failing);
      if may {
        rejected, ev' := Send(Finish(Rejected), was, guard.table.runs, guard.Value(), record, ev', MayReject);
      }
    }

    /** What follows a claim that went well. */
    method CreateAndFinish(guard: ExecutionGuard, record: string, ghost was: Runs, ghost ev: seq<Event>)
      returns (ok: bool, final: bool, ghost ev': seq<Event>)
      requires Told(was, guard.table.runs, guard.Value(), record, ev, HasClaimed)
      modifies guard.table
      ensures Told(was, guard.table.runs, guard.Value(), record, ev', if final then ExportPc.Closed else Failing)
      ensures ok == Succeeded(ev') && (ok ==> final)
    {
      ok, final, ev' := false, false, ev;
      var may, post := false, false;
      may, ev' := Ask(guard, PostCreate, "", was, record, ev', HasClaimed);
      if may {
        post, ev' := Send(CreatePost, was, guard.table.runs, guard.Value(), record, ev', MayCreate);
      }
      if post {
        final, ev' := Ask(guard, SourcePatch, record, was, record, ev', HasCreated);
      }
      if final {
        ok, ev' := Send(Finish(Exported), was, guard.table.runs, guard.Value(), record, ev', MayFinish);
      }
    }
  }
}
