/** The cutover of a campaign media, tools/comment_campaign_baseline_cli.py: comments that were there
    before a media goes live are never answered. The commands run as processes of their own, one read
    or write at a time, beside the workers of CommentProtocol. */
module CutoverSafety {
  import opened Wrappers
  import opened EventStore
  import Admission
  import opened CommentProtocol
  import PT = PollTargets

  // ── what the command looks at ──────────────────────────────────────────────

  datatype Class = New | AlreadySafe | NeedsReview | Unsafe

  /** _classify_existing. */
  function Classify(status: Option<Row>): Class {
    match status
    case None => New
    case Some(r) =>
      if r.tag.ShadowSeen? || r.tag.PreCutoverSuppressed? then AlreadySafe
      else if r.status.Completed? then AlreadySafe
      else if r.status.Processing? then NeedsReview
      else if r.airtable.RetryPending? then NeedsReview
      else if r.privateReply.Unknown? || r.telegram.Unknown? then NeedsReview
      else Unsafe
  }

  function StatusOf(rows: Rows, c: CommentId): Option<Row> {
    if Key(c) in rows then Some(rows[Key(c)]) else None
  }

  ghost predicate ClosedIn(w: World, c: CommentId) {
    Key(c) in w.rows && w.rows[Key(c)].Closed()
  }

  /** What the command makes of a comment: new exactly when there is no event, safe exactly when that is
      tagged or completed, beyond repair exactly when it is dead with nothing pending and nothing unknown;
      and everything else is for a person to look at. */
  lemma SafeMeansClosed(w: World, c: CommentId)
    ensures Classify(StatusOf(w.rows, c)).New? <==> Key(c) !in w.rows
    ensures Classify(StatusOf(w.rows, c)).AlreadySafe? <==>
              Key(c) in w.rows && (!w.rows[Key(c)].tag.Untagged? || w.rows[Key(c)].status.Completed?)
    ensures Classify(StatusOf(w.rows, c)).Unsafe? <==>
              Key(c) in w.rows && w.rows[Key(c)].tag.Untagged? && w.rows[Key(c)].status.Dead?
              && !w.rows[Key(c)].airtable.RetryPending? && forall e: Effect :: !w.rows[Key(c)].Of(e).Unknown?
    ensures Classify(StatusOf(w.rows, c)).AlreadySafe? ==> ClosedIn(w, c)
    ensures ClosedIn(w, c) ==> Classify(StatusOf(w.rows, c)).AlreadySafe? || w.rows[Key(c)].status.Dead?
  {
    if Key(c) in w.rows {
      var r := w.rows[Key(c)];
      assert r.privateReply == r.Of(PrivateReply) && r.telegram == r.Of(Telegram);
    }
  }

  /** `created` is None when the timestamp is missing or unreadable. */
  datatype Fetched = Fetched(id: string, created: Option<int>)
  datatype Split = Split(before: seq<string>, after: seq<string>)

  function SplitOf(comments: seq<Fetched>, cutover: int): Option<Split> {
    if comments == [] then Some(Split([], []))
    else
      var n := |comments| - 1;
      var c := comments[n];
      match SplitOf(comments[..n], cutover)
      case None => None
      case Some(s) =>
        if c.id == "" then None
        else if c.id in s.before || c.id in s.after then Some(s)
        else if c.created.None? then None
        else if c.created.value < cutover then Some(s.(before := s.before + [c.id]))
        else Some(s.(after := s.after + [c.id]))
  }

  /** Comment `i` is the first of its id. */
  predicate First(comments: seq<Fetched>, i: nat) {
    i < |comments| && forall j :: 0 <= j < i ==> comments[j].id != comments[i].id
  }

  predicate Distinct(ids: seq<string>) {
    forall i, j :: 0 <= i < j < |ids| ==> ids[i] != ids[j]
  }

  predicate OnItsSide(c: Fetched, cutover: int, s: Split) {
    c.created.Some? && c.id in (if c.created.value < cutover then s.before else s.after)
  }

  ghost predicate AppearsFirst(comments: seq<Fetched>, id: string) {
    exists i: nat :: First(comments, i) && comments[i].id == id
  }

  ghost predicate SplitRight(comments: seq<Fetched>, cutover: int, s: Split) {
    && Distinct(s.before + s.after)
    && (forall i: nat :: First(comments, i) ==> OnItsSide(comments[i], cutover, s))
    && (forall id :: id in s.before || id in s.after ==> AppearsFirst(comments, id))
  }

  /** _fetch_and_split either refuses the whole list or puts every id on exactly one side, once, by the
      time of its first appearance. */
  lemma {:induction false} SplitIsByFirstAppearance(comments: seq<Fetched>, cutover: int)
    ensures SplitOf(comments, cutover).Some? <==>
            forall i: nat :: First(comments, i) ==> comments[i].id != "" && comments[i].created.Some?
    ensures SplitOf(comments, cutover).Some? ==> SplitRight(comments, cutover, SplitOf(comments, cutover).value)
  {
    if comments != [] {
      var n := |comments| - 1;
      var front := comments[..n];
      SplitIsByFirstAppearance(front, cutover);
      FirstExtends(comments);
      if SplitOf(front, cutover).Some? {
        var s := SplitOf(front, cutover).value;
        if comments[n].id in s.before || comments[n].id in s.after {
          assert !First(comments, n);
          Known(comments, cutover, s);
        } else {
          assert First(comments, n);
          if comments[n].id != "" && comments[n].created.Some? {
            Placed(comments, cutover, s);
          }
        }
      } else {
        var i: nat :| First(front, i) && !(front[i].id != "" && front[i].created.Some?);
        assert First(comments, i);
      }
    }
  }

  /** An id that appeared still does. */
  lemma StillAppears(comments: seq<Fetched>, id: string)
    requires comments != [] && AppearsFirst(comments[..|comments| - 1], id)
    ensures AppearsFirst(comments, id)
  {
    FirstExtends(comments);
    var i: nat :| First(comments[..|comments| - 1], i) && comments[..|comments| - 1][i].id == id;
    assert First(comments, i) && comments[i].id == id;
  }

  /** The last comment repeats an id. */
  lemma Known(comments: seq<Fetched>, cutover: int, s: Split)
    requires comments != [] && SplitRight(comments[..|comments| - 1], cutover, s) && !First(comments, |comments| - 1)
    ensures SplitRight(comments, cutover, s)
  {
    FirstExtends(comments);
    forall id | id in s.before || id in s.after ensures AppearsFirst(comments, id) {
      StillAppears(comments, id);
    }
    forall i: nat | First(comments, i) ensures OnItsSide(comments[i], cutover, s) {
      assert First(comments[..|comments| - 1], i);
    }
  }

  function Placing(c: Fetched, cutover: int, s: Split): Split
    requires c.created.Some?
  {
    if c.created.value < cutover then s.(before := s.before + [c.id]) else s.(after := s.after + [c.id])
  }

  /** The last comment brings a new id. */
  lemma Placed(comments: seq<Fetched>, cutover: int, s: Split)
    requires comments != [] && SplitRight(comments[..|comments| - 1], cutover, s)
    requires var c := comments[|comments| - 1]; c.created.Some? && c.id !in s.before && c.id !in s.after && First(comments, |comments| - 1)
    ensures SplitRight(comments, cutover, Placing(comments[|comments| - 1], cutover, s))
  {
    var c := comments[|comments| - 1];
    var s' := Placing(c, cutover, s);
    DistinctWith(s.before, s.after, c.id);
    forall id | id in s'.before || id in s'.after ensures AppearsFirst(comments, id) {
      if id == c.id {
        assert First(comments, |comments| - 1);
      } else {
        StillAppears(comments, id);
      }
    }
    FirstExtends(comments);
    forall i: nat | First(comments, i) ensures OnItsSide(comments[i], cutover, s') {
      if i < |comments| - 1 {
        assert First(comments[..|comments| - 1], i) && OnItsSide(comments[i], cutover, s);
      }
    }
  }

  lemma DistinctWith(xs: seq<string>, ys: seq<string>, id: string)
    requires Distinct(xs + ys) && id !in xs && id !in ys
    ensures Distinct(xs + [id] + ys) && Distinct(xs + (ys + [id]))
  {
    var old_, one, two := xs + ys, xs + [id] + ys, xs + (ys + [id]);
    forall i, j | 0 <= i < j < |one| ensures one[i] != one[j] {
      if i != |xs| && j != |xs| {
        assert old_[if i < |xs| then i else i - 1] == one[i] && old_[if j < |xs| then j else j - 1] == one[j];
      }
    }
    forall i, j | 0 <= i < j < |two| ensures two[i] != two[j] {
      assert i < |old_| && old_[i] == two[i];
      assert j < |old_| ==> old_[j] == two[j];
    }
  }

  lemma FirstExtends(comments: seq<Fetched>)
    requires comments != []
    ensures var n := |comments| - 1; var front := comments[..n];
            && (forall i: nat :: i < n ==> First(comments, i) == First(front, i))
            && (First(comments, n) <==> forall i: nat :: First(front, i) ==> front[i].id != comments[n].id)
  {
    var n := |comments| - 1;
    FirstOf(comments[..n], comments[n].id);
    if forall i: nat :: First(comments[..n], i) ==> comments[..n][i].id != comments[n].id {
      assert forall j :: 0 <= j < n ==> comments[..n][j].id != comments[n].id;
    }
  }

  lemma FirstOf(comments: seq<Fetched>, id: string)
    ensures (exists j :: 0 <= j < |comments| && comments[j].id == id) ==> exists i: nat :: First(comments, i) && comments[i].id == id
  {
    if j :| 0 <= j < |comments| && comments[j].id == id {
      var i: nat := 0;
      while comments[i].id != id
        invariant 0 <= i <= j && forall l :: 0 <= l < i ==> comments[l].id != id
        decreases j - i
      {
        i := i + 1;
      }
      assert First(comments, i);
    }
  }

  /** The loop of _fetch_and_split: two growing lists and a set of ids already seen. */
  method FetchAndSplit(comments: seq<Fetched>, cutover: int) returns (split: Option<Split>)
    ensures split == SplitOf(comments, cutover)
  {
    var before: seq<string>, after: seq<string>, seen: set<string> := [], [], {};
    var n := 0;
    while n < |comments|
      invariant 0 <= n <= |comments|
      invariant SplitOf(comments[..n], cutover) == Some(Split(before, after))
      invariant forall id :: id in seen <==> id in before || id in after
    {
      var c := comments[n];
      assert comments[..n + 1][..n] == comments[..n];
      if c.id == "" || (c.id !in seen && c.created.None?) {
        RefusalSticks(comments, n + 1, cutover);
        return None;
      }
      if c.id !in seen {
        seen := seen + {c.id};
        if c.created.value < cutover {
          before := before + [c.id];
        } else {
          after := after + [c.id];
        }
      }
      n := n + 1;
    }
    assert comments[..n] == comments;
    return Some(Split(before, after));
  }

  lemma {:induction false} RefusalSticks(comments: seq<Fetched>, n: nat, cutover: int)
    requires n <= |comments| && SplitOf(comments[..n], cutover).None?
    ensures SplitOf(comments, cutover).None?
  {
    if n == |comments| {
      assert comments[..n] == comments;
    } else {
      assert comments[..|comments| - 1][..n] == comments[..n];
      RefusalSticks(comments[..|comments| - 1], n, cutover);
    }
  }

  function Ids(s: seq<string>): set<string> { set id | id in s }

  // ── the commands as processes ──────────────────────────────────────────────

  datatype Cli =
    | Applying(m: PT.MediaId, cutover: int, before: seq<CommentId>, classes: seq<Class>, done: nat, recheck: bool)
    | Verifying(m: PT.MediaId, appliedAt: Option<nat>, before: seq<CommentId>, after: seq<CommentId>, checked: nat, confirmed: bool)
    | Ended(ok: bool)

  datatype System = System(w: World, ts: PT.Targets, clis: map<nat, Cli>)

  datatype Move =
    | Protocol(a: Action)
    | SyncTargets(config: Option<PT.Campaign>)
    | ActivateMedia(m: PT.MediaId)
    | BeginApply(p: nat, m: PT.MediaId, cutover: int, fetched: seq<Fetched>)
    | ReadNext(p: nat)
    | SuppressNext(p: nat)
    | Recheck(p: nat)
    | RecordBaseline(p: nat, now: nat)
    | BeginVerify(p: nat, m: PT.MediaId, fetched: seq<Fetched>)
    | CheckNext(p: nat)
    | Confirm(p: nat)
    | RecordVerified(p: nat, now: nat)

  ghost predicate CanMove(s: System, mv: Move) {
    match mv
    case Protocol(a) => Enabled(s.w, a)
    case SyncTargets(_) => true
    case ActivateMedia(_) => true
    case BeginApply(p, m, cutover, fetched) => p !in s.clis && PT.CanApply(s.ts, m) && SplitOf(fetched, cutover).Some?
    case ReadNext(p) => p in s.clis && s.clis[p].Applying? && |s.clis[p].classes| < |s.clis[p].before|
    case SuppressNext(p) =>
      p in s.clis && s.clis[p].Applying? && var x := s.clis[p];
      |x.classes| == |x.before| && x.done < |x.before| && !x.recheck
    case Recheck(p) => p in s.clis && s.clis[p].Applying? && s.clis[p].recheck && s.clis[p].done < |s.clis[p].before|
    case RecordBaseline(p, _) => p in s.clis && s.clis[p].Applying? && s.clis[p].done == |s.clis[p].before| == |s.clis[p].classes|
    case BeginVerify(p, m, fetched) =>
      p !in s.clis && PT.CanVerify(s.ts, m) && s.ts[m].cutoverAt.Some? && SplitOf(fetched, s.ts[m].cutoverAt.value).Some?
    case CheckNext(p) => p in s.clis && s.clis[p].Verifying? && s.clis[p].checked < |s.clis[p].before| + |s.clis[p].after|
    case Confirm(p) => p in s.clis && s.clis[p].Verifying? && s.clis[p].checked == |s.clis[p].before| + |s.clis[p].after|
    case RecordVerified(p, _) => p in s.clis && s.clis[p].Verifying? && s.clis[p].confirmed
  }

  function Put(s: System, p: nat, x: Cli): System { s.(clis := s.clis[p := x]) }

  ghost function Moves(s: System, mv: Move): System
    requires CanMove(s, mv)
  {
    match mv
    case Protocol(a) => s.(w := Exec(s.w, a))
    case SyncTargets(config) => s.(ts := PT.Step(s.ts, PT.Sync(config)))
    case ActivateMedia(m) => s.(ts := PT.Activated(s.ts, m))
    case BeginApply(p, m, cutover, fetched) =>
      Put(s, p, Applying(m, cutover, SplitOf(fetched, cutover).value.before, [], 0, false))
    case ReadNext(p) =>
      // the whole list is read before anything is written; one bad class ends the command
      var x := s.clis[p];
      var cls := Classify(StatusOf(s.w.rows, x.before[|x.classes|]));
      Put(s, p, if cls.NeedsReview? || cls.Unsafe? then Ended(false) else x.(classes := x.classes + [cls]))
    case SuppressNext(p) =>
      var x := s.clis[p];
      var c := x.before[x.done];
      if x.classes[x.done].AlreadySafe? then Put(s, p, x.(done := x.done + 1))
      else if Key(c) in s.w.rows then Put(s, p, x.(recheck := true))
      else Put(s, p, x.(done := x.done + 1)).(w := Exec(s.w, SuppressComment(c, "baseline_cli")))
    case Recheck(p) =>
      var x := s.clis[p];
      Put(s, p, if Classify(StatusOf(s.w.rows, x.before[x.done])).AlreadySafe?
                then x.(done := x.done + 1, recheck := false) else Ended(false))
    case RecordBaseline(p, now) =>
      var x := s.clis[p];
      Put(s, p, Ended(PT.CanApply(s.ts, x.m))).(ts := PT.Applied(s.ts, x.m, x.cutover, |x.before|, Ids(x.before), now))
    case BeginVerify(p, m, fetched) =>
      var split := SplitOf(fetched, s.ts[m].cutoverAt.value).value;
      Put(s, p, if s.ts[m].baselineCount == Some(|split.before|) && s.ts[m].sourceHash == Some(Ids(split.before))
                then Verifying(m, s.ts[m].appliedAt, split.before, split.after, 0, false) else Ended(false))
    case CheckNext(p) =>
      var x := s.clis[p];
      var fine := if x.checked < |x.before| then Classify(StatusOf(s.w.rows, x.before[x.checked])).AlreadySafe?
                  else var st := StatusOf(s.w.rows, x.after[x.checked - |x.before|]);
                       st.None? || !st.value.tag.PreCutoverSuppressed?;
      Put(s, p, if fine then x.(checked := x.checked + 1) else Ended(false))
    case Confirm(p) =>
      var x := s.clis[p];
      Put(s, p, if x.m in s.ts && s.ts[x.m].state.PendingBaseline? && s.ts[x.m].appliedAt == x.appliedAt
                   && s.ts[x.m].baselineHash == Some(s.ts[x.m].campaignHash)
                then x.(confirmed := true) else Ended(false))
    case RecordVerified(p, now) =>
      var x := s.clis[p];
      Put(s, p, Ended(PT.CanVerify(s.ts, x.m))).(ts := PT.Verified(s.ts, x.m, now))
  }

  ghost predicate Run(s: System, moves: seq<Move>, s': System)
    decreases |moves|
  {
    if moves == [] then s' == s
    else CanMove(s, moves[0]) && Run(Moves(s, moves[0]), moves[1..], s')
  }

  const START := System(Init(), map[], map[])

  // ── closed rows stay closed ────────────────────────────────────────────────

  lemma ClosedStays(w: World, a: Action, c: CommentId)
    requires Enabled(w, a) && ClosedIn(w, c)
    ensures ClosedIn(Exec(w, a), c)
  {
    if a.Work? {
      TurnRuns(w.rows, w.nextTask, w.workers[a.i], a.turn);
    }
  }

  ghost predicate CliOk(w: World, x: Cli) {
    x.Applying? ==>
      && x.done <= |x.before| && |x.classes| <= |x.before|
      && (forall i :: 0 <= i < |x.classes| && x.classes[i].AlreadySafe? ==> ClosedIn(w, x.before[i]))
      && (forall i :: 0 <= i < x.done ==> ClosedIn(w, x.before[i]))
  }

  ghost predicate TargetOk(w: World, t: PT.Target) {
    && (t.sourceHash.Some? ==> forall c :: c in t.sourceHash.value ==> ClosedIn(w, c))
    && (t.appliedAt.Some? ==> t.sourceHash.Some?)
    && (t.verifiedAt.Some? ==> t.appliedAt.Some?)
    && (t.state.Active? ==> t.verifiedAt.Some?)
  }

  ghost predicate SystemInv(s: System) {
    && SendInv(s.w) && (forall t :: SentOk(s.w, t))
    && (forall p :: p in s.clis ==> CliOk(s.w, s.clis[p]))
    && (forall m :: m in s.ts ==> TargetOk(s.w, s.ts[m]))
  }

  lemma WorldMoves(s: System, a: Action)
    requires SystemInv(s) && Enabled(s.w, a)
    ensures SystemInv(s.(w := Exec(s.w, a)))
  {
    SendInvStep(s.w, a);
    forall t ensures SentOk(Exec(s.w, a), t) {
      SentStep(s.w, a, t);
    }
    forall c | ClosedIn(s.w, c) ensures ClosedIn(Exec(s.w, a), c) {
      ClosedStays(s.w, a, c);
    }
  }

  predicate OnTargets(mv: Move) {
    mv.SyncTargets? || mv.ActivateMedia? || mv.RecordBaseline? || mv.RecordVerified?
  }

  lemma TargetsMove(s: System, mv: Move)
    requires SystemInv(s) && CanMove(s, mv) && OnTargets(mv)
    ensures SystemInv(Moves(s, mv))
  {
  }

  lemma CliMove(s: System, mv: Move)
    requires SystemInv(s) && CanMove(s, mv) && !OnTargets(mv) && !mv.Protocol? && !mv.SuppressNext?
    ensures SystemInv(Moves(s, mv))
  {
    if mv.ReadNext? {
      SafeMeansClosed(s.w, s.clis[mv.p].before[|s.clis[mv.p].classes|]);
    } else if mv.Recheck? {
      SafeMeansClosed(s.w, s.clis[mv.p].before[s.clis[mv.p].done]);
    }
  }

  lemma SuppressMove(s: System, p: nat)
    requires SystemInv(s) && CanMove(s, SuppressNext(p))
    ensures SystemInv(Moves(s, SuppressNext(p)))
  {
    var c := s.clis[p].before[s.clis[p].done];
    if Key(c) !in s.w.rows {
      WorldMoves(s, SuppressComment(c, "baseline_cli"));
    }
  }

  lemma SystemInvMove(s: System, mv: Move)
    requires SystemInv(s) && CanMove(s, mv)
    ensures SystemInv(Moves(s, mv))
  {
    if mv.Protocol? {
      WorldMoves(s, mv.a);
    } else if mv.SuppressNext? {
      SuppressMove(s, mv.p);
    } else if OnTargets(mv) {
      TargetsMove(s, mv);
    } else {
      CliMove(s, mv);
    }
  }

  lemma {:induction false} SystemInvRun(s: System, moves: seq<Move>, s': System)
    requires SystemInv(s) && Run(s, moves, s')
    ensures SystemInv(s')
    decreases |moves|
  {
    if moves != [] {
      SystemInvMove(s, moves[0]);
      SystemInvRun(Moves(s, moves[0]), moves[1..], s');
    }
  }

  /** From the moment an apply succeeds, every comment of the recorded baseline is closed, and no
      interleaving can change that; in particular the baseline of an ACTIVE media is closed. */
  lemma BaselineIsClosed(moves: seq<Move>, s: System, m: PT.MediaId)
    requires Run(START, moves, s) && m in s.ts && s.ts[m].appliedAt.Some?
    ensures s.ts[m].sourceHash.Some? && forall c :: c in s.ts[m].sourceHash.value ==> ClosedIn(s.w, c)
  {
    SystemInvRun(START, moves, s);
  }

  lemma ActiveMediaHasAClosedBaseline(moves: seq<Move>, s: System, m: PT.MediaId)
    requires Run(START, moves, s) && m in s.ts && s.ts[m].state.Active?
    ensures s.ts[m].sourceHash.Some? && forall c :: c in s.ts[m].sourceHash.value ==> ClosedIn(s.w, c)
  {
    SystemInvRun(START, moves, s);
  }

  // ── what each command insists on ───────────────────────────────────────────

  /** The event is tagged or completed: nothing will be sent for it under a new claim. */
  predicate SafeRow(rows: Rows, c: CommentId) {
    Key(c) in rows && (!rows[Key(c)].tag.Untagged? || rows[Key(c)].status.Completed?)
  }

  /** An apply goes on reading only past comments that are new or safe, and gives up, with nothing written,
      on the first that is neither; and where a comment it took for new has an event by now, it goes on
      only if that is safe. */
  lemma ApplyInsists(s: System, p: nat)
    ensures CanMove(s, ReadNext(p)) ==>
              var x, s' := s.clis[p], Moves(s, ReadNext(p)); var c := x.before[|x.classes|];
              && s' == s.(clis := s.clis[p := s'.clis[p]])
              && (Key(c) !in s.w.rows ==> s'.clis[p] == x.(classes := x.classes + [New]))
              && (SafeRow(s.w.rows, c) ==> s'.clis[p] == x.(classes := x.classes + [AlreadySafe]))
              && (Key(c) in s.w.rows && !SafeRow(s.w.rows, c) ==> s'.clis[p] == Ended(false))
    ensures CanMove(s, Recheck(p)) ==>
              var x, s' := s.clis[p], Moves(s, Recheck(p));
              && s' == s.(clis := s.clis[p := s'.clis[p]])
              && s'.clis[p] == if SafeRow(s.w.rows, x.before[x.done]) then x.(done := x.done + 1, recheck := false) else Ended(false)
  {
  }

  /** A verification begins only on the very baseline that was applied, by number and by ids; goes on only
      past baseline comments that are safe, and later ones that were not suppressed; and is confirmed only
      if the media still waits with that apply, and the campaign is the one it was made for. */
  lemma VerifyInsists(s: System, p: nat)
    ensures forall m, fetched :: CanMove(s, BeginVerify(p, m, fetched)) ==>
              var x, split := Moves(s, BeginVerify(p, m, fetched)).clis[p], SplitOf(fetched, s.ts[m].cutoverAt.value).value;
              x == if s.ts[m].baselineCount == Some(|split.before|) && s.ts[m].sourceHash == Some(Ids(split.before))
                   then Verifying(m, s.ts[m].appliedAt, split.before, split.after, 0, false) else Ended(false)
    ensures CanMove(s, CheckNext(p)) ==>
              var x, x' := s.clis[p], Moves(s, CheckNext(p)).clis[p]; var n := |x.before|;
              var fine := if x.checked < n then SafeRow(s.w.rows, x.before[x.checked])
                          else var k := Key(x.after[x.checked - n]); k !in s.w.rows || !s.w.rows[k].tag.PreCutoverSuppressed?;
              x' == if fine then x.(checked := x.checked + 1) else Ended(false)
    ensures CanMove(s, Move.Confirm(p)) ==>
              var x, x' := s.clis[p], Moves(s, Move.Confirm(p)).clis[p];
              var fine := x.m in s.ts && s.ts[x.m].state == Admission.PendingBaseline && s.ts[x.m].appliedAt == x.appliedAt
                          && s.ts[x.m].baselineHash == Some(s.ts[x.m].campaignHash);
              x' == if fine then x.(confirmed := true) else Ended(false)
  {
  }

  // ── what the verification catches ──────────────────────────────────────────

  /** The verification by `p` has not come to comment `j` of those after the cutover, which is suppressed;
      or it has failed. */
  ghost predicate Doomed(s: System, p: nat, j: nat) {
    p in s.clis
    && (s.clis[p] == Ended(false)
        || (s.clis[p].Verifying? && var x := s.clis[p];
            && j < |x.after| && x.checked <= |x.before| + j && !x.confirmed
            && Key(x.after[j]) in s.w.rows && s.w.rows[Key(x.after[j])].tag.PreCutoverSuppressed?))
  }

  lemma DoomedMove(s: System, mv: Move, p: nat, j: nat)
    requires CanMove(s, mv) && Doomed(s, p, j)
    ensures Doomed(Moves(s, mv), p, j)
  {
    if s.clis[p].Verifying? {
      var c := s.clis[p].after[j];
      if mv.Protocol? {
        StepEvolves(s.w, mv.a, c);
      } else if mv.SuppressNext? && Key(s.clis[mv.p].before[s.clis[mv.p].done]) !in s.w.rows {
        StepEvolves(s.w, SuppressComment(s.clis[mv.p].before[s.clis[mv.p].done], "baseline_cli"), c);
      }
    }
  }

  /** A baseline that swallowed a comment of after the cutover is never verified: if one is suppressed when
      the verification reads its list, that verification does not succeed, whatever happens beside it. */
  lemma {:induction false} OverreachIsCaught(s: System, moves: seq<Move>, s': System, p: nat, j: nat)
    requires Doomed(s, p, j) && Run(s, moves, s')
    ensures Doomed(s', p, j) && s'.clis[p] != Ended(true)
    decreases |moves|
  {
    if moves != [] {
      DoomedMove(s, moves[0], p, j);
      OverreachIsCaught(Moves(s, moves[0]), moves[1..], s', p, j);
    }
  }

  // ── what may still go out for a closed comment ─────────────────────────────

  /** Worker `i` took the comment before it was closed and has not yet sent `e`. */
  ghost predicate CanStillSend(w: World, i: nat, c: CommentId, e: Effect) {
    i in w.workers && w.workers[i].comment == c &&
    var x := w.workers[i];
    || (x.pc.Begun? && x.pc.e == e)
    || (Owns(w.rows, Key(c), x.token)
        && (|| (x.pc.Claimed? && (e.Telegram? || x.wantsReply) && w.rows[Key(c)].Of(e).NotApplicable?)
            || (Ahead(x.pc, e) && !Settled(x.seen, e))))
  }

  ghost predicate InFlight(w: World, c: CommentId, e: Effect) {
    exists i :: CanStillSend(w, i, c, e)
  }

  lemma QuietTurn(w: World, i: nat, turn: Turn, c: CommentId, e: Effect)
    requires ClosedIn(w, c) && Enabled(w, Work(i, turn)) && WorkerOk(w.rows, w.workers[i]) && !CanStillSend(w, i, c, e)
    ensures !CanStillSend(Exec(w, Work(i, turn)), i, c, e)
  {
    var x := w.workers[i];
    if TouchesEffects(turn) { QuietTurnOnEffects(w, i, turn, c, e); }
  }

  lemma QuietTurnOnEffects(w: World, i: nat, turn: Turn, c: CommentId, e: Effect)
    requires ClosedIn(w, c) && Enabled(w, Work(i, turn)) && WorkerOk(w.rows, w.workers[i]) && !CanStillSend(w, i, c, e)
    requires TouchesEffects(turn)
    ensures !CanStillSend(Exec(w, Work(i, turn)), i, c, e)
  {
    if turn.Begin? {
      assert Ahead(w.workers[i].pc, w.workers[i].pc.e);
    }
  }

  lemma QuietSend(w: World, i: nat, turn: Turn, c: CommentId, e: Effect)
    requires Enabled(w, Work(i, turn)) && !CanStillSend(w, i, c, e)
    ensures Exec(w, Work(i, turn)).sends[(c, e)] == w.sends[(c, e)]
  {
    if !turn.Send? {
      assert Turned(w.rows, w.nextTask, w.workers[i], turn).sends.None?;
    }
  }

  lemma QuietStep(w: World, a: Action, c: CommentId, e: Effect)
    requires SendInv(w) && Enabled(w, a) && ClosedIn(w, c) && !InFlight(w, c, e)
    ensures !InFlight(Exec(w, a), c, e) && ClosedIn(Exec(w, a), c)
    ensures Exec(w, a).sends[(c, e)] == w.sends[(c, e)]
  {
    var w' := Exec(w, a);
    ClosedStays(w, a, c);
    StepEvolves(w, a, c);
    if a.Work? {
      QuietTurn(w, a.i, a.turn, c, e);
      QuietSend(w, a.i, a.turn, c, e);
    }
    forall i ensures !CanStillSend(w', i, c, e) {
      assert !CanStillSend(w, i, c, e);
    }
  }

  lemma {:induction false} QuietRun(w: World, acts: seq<Action>, w': World, c: CommentId, e: Effect)
    requires SendInv(w) && Leads(w, acts, w') && ClosedIn(w, c) && !InFlight(w, c, e)
    ensures w'.sends[(c, e)] == w.sends[(c, e)]
    decreases |acts|
  {
    if acts != [] {
      SendInvStep(w, acts[0]);
      QuietStep(w, acts[0], c, e);
      QuietRun(Exec(w, acts[0]), acts[1..], w', c, e);
    }
  }

  /** How many turns of its own the worker is from sending `e`. */
  function Distance(pc: Pc, e: Effect): nat {
    if pc.Begun? && pc.e == e then 0
    else if pc.Gate? && pc.e == e then 1
    else if pc.Sent? then 2
    else if pc.Begun? then 3
    else if pc.Gate? then 4
    else 5
  }

  /** The next turn of a worker on its way to sending `e`. */
  function Towards(pc: Pc, e: Effect): Turn {
    if pc.Begun? then Send(true)
    else if pc.Gate? then if pc.e == e then Begin else Skip
    else if pc.Sent? then CommentProtocol.Confirm
    else ReadRow
  }

  lemma OneTurnCloser(w: World, i: nat, c: CommentId, e: Effect)
    requires CanStillSend(w, i, c, e) && !(w.workers[i].pc.Begun? && w.workers[i].pc.e == e)
    ensures var a := Work(i, Towards(w.workers[i].pc, e));
            Enabled(w, a)
            && CanStillSend(Exec(w, a), i, c, e) && Distance(Exec(w, a).workers[i].pc, e) < Distance(w.workers[i].pc, e)
            && Exec(w, a).sends[(c, e)] == w.sends[(c, e)]
  {
  }

  /** A worker that can still send needs nobody's help to do so. */
  lemma {:induction false} SendsInTheEnd(w: World, i: nat, c: CommentId, e: Effect) returns (acts: seq<Action>, w': World)
    requires CanStillSend(w, i, c, e)
    ensures Leads(w, acts, w') && w'.sends[(c, e)] == w.sends[(c, e)] + 1
    decreases Distance(w.workers[i].pc, e)
  {
    var a := Work(i, Towards(w.workers[i].pc, e));
    if w.workers[i].pc.Begun? && w.workers[i].pc.e == e {
      acts, w' := [a], Exec(w, a);
    } else {
      OneTurnCloser(w, i, c, e);
      var rest;
      rest, w' := SendsInTheEnd(Exec(w, a), i, c, e);
      acts := [a] + rest;
      assert acts[1..] == rest;
    }
  }

  /** Whatever happens from here on, `e` does not go out for `c`. */
  ghost predicate SilentFromHere(w: World, c: CommentId, e: Effect) {
    forall acts, w' :: Leads(w, acts, w') ==> w'.sends[(c, e)] == w.sends[(c, e)]
  }

  /** Exactly when a closed comment is never answered again: when no worker that took it before it was
      closed is still on its way to sending. */
  lemma SilentIffNothingInFlight(w: World, c: CommentId, e: Effect)
    requires SendInv(w) && ClosedIn(w, c)
    ensures SilentFromHere(w, c, e) <==> !InFlight(w, c, e)
  {
    if InFlight(w, c, e) {
      var i :| CanStillSend(w, i, c, e);
      var acts, w' := SendsInTheEnd(w, i, c, e);
    } else {
      forall acts, w' | Leads(w, acts, w') ensures w'.sends[(c, e)] == w.sends[(c, e)] {
        QuietRun(w, acts, w', c, e);
      }
    }
  }

  /** A comment that the cutover itself suppressed, or that was seen in shadow mode, never has anything
      in flight. */
  lemma TaggedIsSilent(w: World, c: CommentId, e: Effect)
    requires SendInv(w) && Key(c) in w.rows && !w.rows[Key(c)].tag.Untagged?
    ensures ClosedIn(w, c) && !InFlight(w, c, e) && w.sends[(c, e)] == 0
  {
    assert SlotOk(w, (c, e));
    forall i ensures !CanStillSend(w, i, c, e) {
      assert i in w.workers ==> WorkerOk(w.rows, w.workers[i]);
      assert !AtBegun(w, i, (c, e));
    }
  }

  /** Nor has an effect whose column says DONE. */
  lemma DoneIsSilent(w: World, c: CommentId, e: Effect)
    requires SendInv(w) && SentOk(w, (c, e)) && Key(c) in w.rows && w.rows[Key(c)].Of(e).Done?
    ensures !InFlight(w, c, e) && w.sends[(c, e)] == 1
  {
    assert SlotOk(w, (c, e));
    forall i ensures !CanStillSend(w, i, c, e) {
      assert i in w.workers ==> WorkerOk(w.rows, w.workers[i]);
      assert !AtBegun(w, i, (c, e));
    }
  }

  /** What the table alone can tell: the comment is tagged, or the effect is DONE. */
  predicate SettledByTable(r: Row, e: Effect) { !r.tag.Untagged? || r.Of(e).Done? }

  /** End to end: in any run in which `m` is ACTIVE, no comment of its baseline is ever answered again
      under a claim, unless a worker of before the cutover is still on its way to answer that very comment;
      and the table can rule that out. */
  lemma OldCommentsStayUnanswered(moves: seq<Move>, s: System, m: PT.MediaId, c: CommentId, e: Effect)
    requires Run(START, moves, s) && m in s.ts && s.ts[m].state.Active?
    ensures s.ts[m].sourceHash.Some?
    ensures c in s.ts[m].sourceHash.value ==>
              ClosedIn(s.w, c)
              && (SilentFromHere(s.w, c, e) <==> !InFlight(s.w, c, e))
              && (SettledByTable(s.w.rows[Key(c)], e) ==> SilentFromHere(s.w, c, e))
              && (!s.w.rows[Key(c)].tag.Untagged? ==> s.w.sends[(c, e)] == 0)
  {
    SystemInvRun(START, moves, s);
    if c in s.ts[m].sourceHash.value {
      SilentIffNothingInFlight(s.w, c, e);
      if !s.w.rows[Key(c)].tag.Untagged? {
        TaggedIsSilent(s.w, c, e);
      } else if s.w.rows[Key(c)].Of(e).Done? {
        DoneIsSilent(s.w, c, e);
      }
    }
  }

  // ── the exception is real ──────────────────────────────────────────────────

  const OPEN := Admission.Circumstances("m", Some({"m"}), Some(None), false, Admission.Enforce, true, true, true, true)

  ghost predicate Stalled(w: World) {
    && w.clock == 61 && w.nextToken == 1 && w.workers.Keys == {0}
    && w.workers[0] == Worker("c", 0, Begun(Telegram), false, w.workers[0].seen)
    && w.rows == map[Key("c") := NewRow(Processing, 0, "webhook", 60, Untagged).With(Telegram, EffectStatus.Started)]
  }

  ghost predicate Retaken(w: World) {
    && w.workers.Keys == {0, 1} && w.workers[0] == Worker("c", 0, Begun(Telegram), false, w.workers[0].seen)
    && w.workers[1].comment == "c" && w.workers[1].token == 1 && w.workers[1].pc == Gate(Telegram)
    && Owns(w.rows, Key("c"), 1) && w.rows[Key("c")].airtable.Pending? && w.workers[1].seen == Some(w.rows[Key("c")])
  }

  lemma OpenAdmits()
    ensures Admission.Admit(OPEN).Claim?
  {
  }

  lemma Onward(w: World, a: Action) returns (w': World)
    requires Reachable(w) && Enabled(w, a)
    ensures w' == Exec(w, a) && Reachable(w')
  {
    var acts :| Leads(Init(), acts, w);
    w' := Exec(w, a);
    OneMore(Init(), acts, w, a);
  }

  /** A worker writes STARTED and stalls past the end of its lease. */
  lemma Stall() returns (w: World)
    ensures Reachable(w) && Stalled(w)
  {
    OpenAdmits();
    assert Leads(Init(), [], Init());
    w := Onward(Init(), Start(0, "c", OPEN, "webhook", false));
    assert w.workers[0].pc == Claimed;
    w := Onward(w, Work(0, ReadRow));
    assert w.workers[0].pc == Gate(Telegram);
    w := Onward(w, Work(0, Begin));
    w := Onward(w, Tick(LEASE_SECONDS + 1));
  }

  /** A second worker takes the event over ... */
  lemma Retake(w0: World) returns (w: World)
    requires Reachable(w0) && Stalled(w0)
    ensures Reachable(w) && Retaken(w)
  {
    OpenAdmits();
    w := Onward(w0, Start(1, "c", OPEN, "poller", false));
    assert w.workers[1].pc == Lost(61, 121) && w.rows[Key("c")].Stale(61);
    w := Onward(w, Work(1, TakeOver("poller")));
    w := Onward(w, Work(1, ReadRow));
  }

  /** ... and finishes it, while the first can still send. */
  lemma Finish(w0: World) returns (w: World)
    requires Reachable(w0) && Retaken(w0)
    ensures Reachable(w) && Classify(StatusOf(w.rows, "c")).AlreadySafe? && InFlight(w, "c", Telegram)
  {
    w := Onward(w0, Work(1, Skip));
    assert w.workers[1].pc.Record? && w.workers[0] == w0.workers[0];
    w := Onward(w, Work(1, Create(true, true)));
    assert w.workers[1].pc.Created? && w.workers[0] == w0.workers[0];
    w := Onward(w, Work(1, MarkDone));
    assert CanStillSend(w, 0, "c", Telegram);
  }

  /** The exception of SilentIffNothingInFlight happens: the baseline command classifies this reachable
      event as safe, and yet its first worker can still send. */
  lemma SafeByClassYetInFlight() returns (w: World)
    ensures Reachable(w)
    ensures Classify(StatusOf(w.rows, "c")).AlreadySafe? && !SilentFromHere(w, "c", Telegram)
  {
    w := Stall();
    w := Retake(w);
    w := Finish(w);
    var acts :| Leads(Init(), acts, w);
    SendInvInit();
    SendInvRun(Init(), acts, w);
    SafeMeansClosed(w, "c");
    SilentIffNothingInFlight(w, "c", Telegram);
  }

  // ── and it outlasts the activation ─────────────────────────────────────────

  ghost predicate RunsTo(s: System, s': System) { exists moves :: Run(s, moves, s') }

  lemma {:induction false} OneMoveMore(s: System, moves: seq<Move>, s1: System, mv: Move)
    requires Run(s, moves, s1) && CanMove(s1, mv)
    ensures Run(s, moves + [mv], Moves(s1, mv))
    decreases |moves|
  {
    if moves == [] {
      assert ([] + [mv])[1..] == [];
      assert Run(Moves(s, mv), [], Moves(s, mv));
    } else {
      OneMoveMore(Moves(s, moves[0]), moves[1..], s1, mv);
      assert (moves + [mv])[1..] == moves[1..] + [mv];
    }
  }

  lemma MovesOn(s: System, s1: System, mv: Move) returns (s': System)
    requires RunsTo(s, s1) && CanMove(s1, mv)
    ensures s' == Moves(s1, mv) && RunsTo(s, s')
  {
    var moves :| Run(s, moves, s1);
    s' := Moves(s1, mv);
    OneMoveMore(s, moves, s1, mv);
  }

  /** A run of the workers alone is a run of the system. */
  lemma {:induction false} WorkersAlone(s: System, s1: System, acts: seq<Action>, w: World)
    requires RunsTo(s, s1) && Leads(s1.w, acts, w)
    ensures RunsTo(s, s1.(w := w))
    decreases |acts|
  {
    if acts == [] {
      assert s1.(w := w) == s1;
    } else {
      var s2 := MovesOn(s, s1, Protocol(acts[0]));
      WorkersAlone(s, s2, acts[1..], w);
      assert s2.(w := w) == s1.(w := w);
    }
  }

  /** The media is registered, and a baseline of the one comment applied to it. */
  ghost predicate Baselined(s: System, w: World, m: PT.MediaId, c: CommentId) {
    && s.w == w && 1 !in s.clis && m in s.ts
    && s.ts[m] == PT.Target(Admission.PendingBaseline, Some(1), Some(1), Some({c}), Some(5), None, {m}, Some({m}))
  }

  lemma SplitsOff(c: CommentId)
    requires c != ""
    ensures SplitOf([Fetched(c, Some(0))], 1) == Some(Split([c], [])) && Ids([c]) == {c}
  {
    var f := [Fetched(c, Some(0))];
    assert f[..|f| - 1] == [];
    assert SplitOf(f[..|f| - 1], 1) == Some(Split([], []));
    assert [] + [c] == [c] && c in [c];
  }

  /** The workers' world once the baseline is applied: a comment that is new is suppressed. */
  ghost function AfterApply(w: World, c: CommentId): World {
    if Key(c) in w.rows then w else Exec(w, SuppressComment(c, "baseline_cli"))
  }

  lemma ApplyReads(s0: System, w: World, m: PT.MediaId, c: CommentId) returns (s: System)
    requires RunsTo(s0, System(w, map[], map[])) && c != "" && (Key(c) !in w.rows || Classify(StatusOf(w.rows, c)).AlreadySafe?)
    ensures RunsTo(s0, s)
    ensures s == System(w, map[m := PT.NewTarget({m})], map[0 := Applying(m, 1, [c], [Classify(StatusOf(w.rows, c))], 0, false)])
  {
    SplitsOff(c);
    s := MovesOn(s0, System(w, map[], map[]), SyncTargets(Some({m})));
    assert s == System(w, map[m := PT.NewTarget({m})], map[]);
    s := MovesOn(s0, s, BeginApply(0, m, 1, [Fetched(c, Some(0))]));
    assert s == System(w, map[m := PT.NewTarget({m})], map[0 := Applying(m, 1, [c], [], 0, false)]);
    s := MovesOn(s0, s, ReadNext(0));
    assert s.clis[0] == Applying(m, 1, [c], [Classify(StatusOf(w.rows, c))], 0, false);
    assert s.clis == map[0 := s.clis[0]];
  }

  lemma ApplyAccepts(s0: System, w: World, m: PT.MediaId, c: CommentId) returns (s: System)
    requires RunsTo(s0, System(w, map[], map[])) && c != "" && (Key(c) !in w.rows || Classify(StatusOf(w.rows, c)).AlreadySafe?)
    ensures RunsTo(s0, s) && Baselined(s, AfterApply(w, c), m, c)
  {
    s := ApplyReads(s0, w, m, c);
    var cls := Classify(StatusOf(w.rows, c));
    s := MovesOn(s0, s, SuppressNext(0));
    assert s.clis == map[0 := Applying(m, 1, [c], [cls], 1, false)] && s.w == AfterApply(w, c) && s.ts == map[m := PT.NewTarget({m})];
    s := MovesOn(s0, s, RecordBaseline(0, 5));
    assert Ids([c]) == {c};
  }

  lemma VerifyAccepts(s0: System, s1: System, w: World, m: PT.MediaId, c: CommentId) returns (s: System)
    requires RunsTo(s0, s1) && Baselined(s1, w, m, c) && c != "" && Classify(StatusOf(w.rows, c)).AlreadySafe?
    ensures RunsTo(s0, s) && s.w == w && m in s.ts && s.ts[m] == s1.ts[m].(verifiedAt := Some(6))
  {
    SplitsOff(c);
    s := MovesOn(s0, s1, BeginVerify(1, m, [Fetched(c, Some(0))]));
    assert s.clis[1] == Verifying(m, Some(5), [c], [], 0, false) && s.w == w && s.ts == s1.ts;
    s := MovesOn(s0, s, CheckNext(1));
    assert s.clis[1] == Verifying(m, Some(5), [c], [], 1, false) && s.w == w && s.ts == s1.ts;
    s := MovesOn(s0, s, Move.Confirm(1));
    assert s.clis[1] == Verifying(m, Some(5), [c], [], 1, true) && s.w == w && s.ts == s1.ts;
    s := MovesOn(s0, s, RecordVerified(1, 6));
  }

  lemma AfterApplyIsSafe(w: World, c: CommentId)
    requires Key(c) !in w.rows || Classify(StatusOf(w.rows, c)).AlreadySafe?
    ensures Classify(StatusOf(AfterApply(w, c).rows, c)).AlreadySafe?
    ensures Key(c) !in w.rows ==>
              AfterApply(w, c).rows == w.rows[Key(c) := Row(Completed, w.nextToken, "baseline_cli", w.clock, NotApplicable, NotApplicable,
                                                            AirtableStatus.Pending, false, None, "", PreCutoverSuppressed)]
  {
  }

  /** And with a comment nobody has seen as its baseline: that comment is suppressed, and nothing else
      changes for the workers. */
  lemma CommandsSuppressTheNew(w: World, m: PT.MediaId, c: CommentId) returns (s: System)
    requires Reachable(w) && c != "" && Key(c) !in w.rows
    ensures RunsTo(START, s) && s.w == w.(rows := s.w.rows, nextToken := w.nextToken + 1)
    ensures s.w.rows == w.rows[Key(c) := Row(Completed, w.nextToken, "baseline_cli", w.clock, NotApplicable, NotApplicable,
                                             AirtableStatus.Pending, false, None, "", PreCutoverSuppressed)]
    ensures m in s.ts && s.ts[m].state.Active? && s.ts[m].sourceHash == Some({c})
  {
    AfterApplyIsSafe(w, c);
    s := CommandsGoThrough(w, m, c);
  }

  lemma CommandsGoThrough(w: World, m: PT.MediaId, c: CommentId) returns (s: System)
    requires Reachable(w) && c != "" && (Key(c) !in w.rows || Classify(StatusOf(w.rows, c)).AlreadySafe?)
    ensures RunsTo(START, s) && s.w == AfterApply(w, c)
    ensures m in s.ts && s.ts[m].state.Active? && s.ts[m].sourceHash == Some({c})
  {
    var acts :| Leads(Init(), acts, w);
    assert Run(START, [], START);
    WorkersAlone(START, START, acts, w);
    AfterApplyIsSafe(w, c);
    s := ApplyAccepts(START, w, m, c);
    s := VerifyAccepts(START, s, AfterApply(w, c), m, c);
    s := MovesOn(START, s, ActivateMedia(m));
  }

  /** The commands take a media to ACTIVE over any state of the workers in which its comment is called
      safe, and leave that state as it is. */
  lemma CommandsAcceptTheSafe(w: World, m: PT.MediaId, c: CommentId) returns (s: System)
    requires Reachable(w) && c != "" && Classify(StatusOf(w.rows, c)).AlreadySafe?
    ensures RunsTo(START, s) && s.w == w
    ensures m in s.ts && s.ts[m].state.Active? && s.ts[m].sourceHash == Some({c})
  {
    s := CommandsGoThrough(w, m, c);
  }

  /** So a comment of the verified baseline of an ACTIVE media can still be answered. */
  lemma ActiveYetInFlight() returns (s: System)
    ensures RunsTo(START, s) && "m" in s.ts && s.ts["m"].state.Active? && s.ts["m"].sourceHash == Some({"c"})
    ensures !SilentFromHere(s.w, "c", Telegram)
  {
    var w := SafeByClassYetInFlight();
    s := CommandsAcceptTheSafe(w, "m", "c");
  }
}
