/** The state machine of watched media, modules/comment/comment_poll_targets.py.

    A hash of a list of ids (sorted and joined) is modelled by the set of the ids: it is the same
    for two lists exactly when they have the same members, since neither list repeats an id. */
module PollTargets {
  import opened Wrappers
  import opened Admission

  type MediaId = string
  type Campaign = set<MediaId>

  datatype Target = Target(
    state: TargetState,
    cutoverAt: Option<int>,
    baselineCount: Option<nat>,
    sourceHash: Option<set<string>>,
    appliedAt: Option<nat>,
    verifiedAt: Option<nat>,
    campaignHash: Campaign,
    baselineHash: Option<Campaign>)

  type Targets = map<MediaId, Target>

  function NewTarget(campaign: Campaign): Target {
    Target(PendingBaseline, None, None, None, None, None, campaign, None)
  }

  // ── the statements ─────────────────────────────────────────────────────────

  function SyncOne(ts: Targets, campaign: Campaign, m: MediaId): Target
    requires m in ts.Keys + campaign
  {
    if m !in ts then NewTarget(campaign)
    else if m !in campaign then
      if ts[m].state.Invalid? then ts[m] else ts[m].(state := Paused)
    else if ts[m].state.Paused? then NewTarget(campaign)
    else ts[m].(campaignHash := campaign)
  }

  function Synced(ts: Targets, campaign: Campaign): Targets {
    map m | m in ts.Keys + campaign :: SyncOne(ts, campaign, m)
  }

  predicate CanApply(ts: Targets, m: MediaId) {
    m in ts && ts[m].state.PendingBaseline?
  }

  function Applied(ts: Targets, m: MediaId, cutover: int, count: nat, source: set<string>, now: nat): Targets {
    if CanApply(ts, m)
    then ts[m := ts[m].(cutoverAt := Some(cutover), baselineCount := Some(count), sourceHash := Some(source),
                        appliedAt := Some(now), verifiedAt := None, baselineHash := Some(ts[m].campaignHash))]
    else ts
  }

  predicate CanVerify(ts: Targets, m: MediaId) {
    m in ts && ts[m].state.PendingBaseline? && ts[m].appliedAt.Some?
  }

  function Verified(ts: Targets, m: MediaId, now: nat): Targets {
    if CanVerify(ts, m) then ts[m := ts[m].(verifiedAt := Some(now))] else ts
  }

  predicate CanActivate(ts: Targets, m: MediaId) {
    m in ts && ts[m].state.PendingBaseline? && ts[m].verifiedAt.Some? && ts[m].baselineHash == Some(ts[m].campaignHash)
  }

  function Activated(ts: Targets, m: MediaId): Targets {
    if CanActivate(ts, m) then ts[m := ts[m].(state := Active)] else ts
  }

  /** After a successful sync every active media is in the campaign. A media that left it is parked, with
      its columns as they were, and can be neither applied, verified nor activated; one that is new or
      comes back starts from nothing. */
  lemma ActiveIsInCampaign(ts: Targets, campaign: Campaign, m: MediaId)
    ensures m in Synced(ts, campaign) && Synced(ts, campaign)[m].state.Active?
            <==> m in ts && ts[m].state.Active? && m in campaign
    ensures SyncedRight(ts, campaign, Synced(ts, campaign))
    ensures m in ts && m !in campaign ==>
              var ts' := Synced(ts, campaign);
              && (ts'[m].state.Paused? || (ts'[m].state.Invalid? && ts[m].state.Invalid?))
              && !CanApply(ts', m) && !CanVerify(ts', m) && !CanActivate(ts', m)
  {
  }

  /** What a sync with `campaign` makes of a table, row by row. */
  predicate SyncedRight(ts: Targets, campaign: Campaign, ts': Targets) {
    && ts'.Keys == ts.Keys + campaign
    && (forall m | m in ts && m !in campaign :: ts'[m] == ts[m].(state := if ts[m].state.Invalid? then Invalid else Paused))
    && (forall m | m in campaign && (m !in ts || ts[m].state.Paused?) ::
          ts'[m] == Target(PendingBaseline, None, None, None, None, None, campaign, None))
    && (forall m | m in campaign && m in ts && !ts[m].state.Paused? :: ts'[m] == ts[m].(campaignHash := campaign))
  }

  lemma SyncIsIdempotent(ts: Targets, campaign: Campaign)
    ensures Synced(Synced(ts, campaign), campaign) == Synced(ts, campaign)
  {
    var once := Synced(ts, campaign);
    assert Synced(once, campaign).Keys == once.Keys;
    forall m | m in once ensures Synced(once, campaign)[m] == once[m] {
    }
  }

  // ── histories ──────────────────────────────────────────────────────────────

  datatype Event =
    | Sync(config: Option<Campaign>)     // None: the file could not be read
    | Apply(m: MediaId, cutover: int, count: nat, source: set<string>, now: nat)
    | Verify(m: MediaId, now: nat)
    | Activate(m: MediaId)

  function Step(ts: Targets, ev: Event): Targets {
    match ev
    case Sync(None) => ts
    case Sync(Some(campaign)) => Synced(ts, campaign)
    case Apply(m, cutover, count, source, now) => Applied(ts, m, cutover, count, source, now)
    case Verify(m, now) => Verified(ts, m, now)
    case Activate(m) => Activated(ts, m)
  }

  /** The table after a history that starts with an empty one. */
  function Play(evs: seq<Event>): Targets {
    if evs == [] then map[] else Step(Play(evs[..|evs| - 1]), evs[|evs| - 1])
  }

  /** Event `j` registers or re-registers `m`. */
  predicate Registers(evs: seq<Event>, m: MediaId, j: nat) {
    j < |evs| && evs[j].Sync? && evs[j].config.Some? && m in evs[j].config.value
    && (m !in Play(evs[..j]) || Play(evs[..j])[m].state.Paused?)
  }

  predicate Applies(evs: seq<Event>, m: MediaId, j: nat) {
    j < |evs| && evs[j].Apply? && evs[j].m == m && CanApply(Play(evs[..j]), m)
  }

  predicate Verifies(evs: seq<Event>, m: MediaId, j: nat) {
    j < |evs| && evs[j].Verify? && evs[j].m == m && CanVerify(Play(evs[..j]), m)
  }

  predicate Activates(evs: seq<Event>, m: MediaId, j: nat) {
    j < |evs| && evs[j].Activate? && evs[j].m == m && CanActivate(Play(evs[..j]), m)
  }

  /** Where the present content of the row of `m` comes from. */
  ghost predicate Pedigree(evs: seq<Event>, m: MediaId, r: nat, a: nat, v: nat, x: nat) {
    m in Play(evs) ==>
      var t := Play(evs)[m];
      && Registers(evs, m, r) && NoneRegistersAfter(evs, m, r)
      && !t.state.Invalid?
      && (t.appliedAt.Some? ==>
            && r < a && Applies(evs, m, a) && NoneAppliesAfter(evs, m, a)
            && t.baselineHash == Some(Play(evs[..a])[m].campaignHash)
            && t.sourceHash == Some(evs[a].source) && t.baselineCount == Some(evs[a].count) && t.cutoverAt == Some(evs[a].cutover))
      && (t.verifiedAt.Some? ==> t.appliedAt.Some? && a < v && Verifies(evs, m, v))
      && (t.state.Active? ==> t.verifiedAt.Some? && v < x && Activates(evs, m, x))
  }

  /** The past of a history does not depend on what follows. */
  lemma FrontAgrees(evs: seq<Event>, m: MediaId, j: nat)
    requires evs != [] && j < |evs| - 1
    ensures var front := evs[..|evs| - 1];
            && Registers(evs, m, j) == Registers(front, m, j) && Applies(evs, m, j) == Applies(front, m, j)
            && Verifies(evs, m, j) == Verifies(front, m, j) && Activates(evs, m, j) == Activates(front, m, j)
            && Play(front[..j]) == Play(evs[..j]) && front[j] == evs[j]
  {
    assert evs[..|evs| - 1][..j] == evs[..j];
  }

  ghost predicate NoneRegistersAfter(evs: seq<Event>, m: MediaId, r: nat) { forall j :: r < j ==> !Registers(evs, m, j) }
  ghost predicate NoneAppliesAfter(evs: seq<Event>, m: MediaId, a: nat) { forall j :: a < j ==> !Applies(evs, m, j) }

  lemma NoneRegistersLater(evs: seq<Event>, m: MediaId, r: nat)
    requires evs != [] && !Registers(evs, m, |evs| - 1) && NoneRegistersAfter(evs[..|evs| - 1], m, r)
    ensures NoneRegistersAfter(evs, m, r)
  {
    forall j | r < j ensures !Registers(evs, m, j) {
      if j < |evs| - 1 { FrontAgrees(evs, m, j); }
    }
  }

  lemma NoneAppliesLater(evs: seq<Event>, m: MediaId, a: nat)
    requires evs != [] && !Applies(evs, m, |evs| - 1) && NoneAppliesAfter(evs[..|evs| - 1], m, a)
    ensures NoneAppliesAfter(evs, m, a)
  {
    forall j | a < j ensures !Applies(evs, m, j) {
      if j < |evs| - 1 { FrontAgrees(evs, m, j); }
    }
  }

  /** The last event does not touch what the pedigree rests on. */
  lemma PedigreeCarries(evs: seq<Event>, m: MediaId, r: nat, a: nat, v: nat, x: nat)
    requires evs != [] && Pedigree(evs[..|evs| - 1], m, r, a, v, x) && m in Play(evs[..|evs| - 1])
    requires !Registers(evs, m, |evs| - 1)
    ensures var t := Play(evs[..|evs| - 1])[m];
            && Registers(evs, m, r) && NoneRegistersAfter(evs, m, r) && !t.state.Invalid?
            && (t.appliedAt.Some? ==> Applies(evs, m, a) && Play(evs[..|evs| - 1][..a]) == Play(evs[..a]) && evs[..|evs| - 1][a] == evs[a])
            && (t.appliedAt.Some? && !Applies(evs, m, |evs| - 1) ==> NoneAppliesAfter(evs, m, a))
            && (t.verifiedAt.Some? ==> Verifies(evs, m, v))
            && (t.state.Active? ==> Activates(evs, m, x))
  {
    var t := Play(evs[..|evs| - 1])[m];
    FrontAgrees(evs, m, r);
    NoneRegistersLater(evs, m, r);
    if t.appliedAt.Some? {
      FrontAgrees(evs, m, a);
      if !Applies(evs, m, |evs| - 1) { NoneAppliesLater(evs, m, a); }
    }
    if t.verifiedAt.Some? { FrontAgrees(evs, m, v); }
    if t.state.Active? { FrontAgrees(evs, m, x); }
  }

  lemma {:induction false} EveryRowHasAPedigree(evs: seq<Event>, m: MediaId) returns (r: nat, a: nat, v: nat, x: nat)
    ensures Pedigree(evs, m, r, a, v, x)
  {
    if evs == [] {
      return 0, 0, 0, 0;
    }
    var n := |evs| - 1;
    r, a, v, x := EveryRowHasAPedigree(evs[..n], m);
    if evs[n].Sync? {
      r := PedigreeAfterSync(evs, m, r, a, v, x);
    } else if evs[n].Apply? {
      a := PedigreeAfterApply(evs, m, r, a, v, x);
    } else {
      v, x := PedigreeAfterMark(evs, m, r, a, v, x);
    }
  }

  lemma PedigreeAfterSync(evs: seq<Event>, m: MediaId, r: nat, a: nat, v: nat, x: nat) returns (r': nat)
    requires evs != [] && evs[|evs| - 1].Sync? && Pedigree(evs[..|evs| - 1], m, r, a, v, x)
    ensures Pedigree(evs, m, r', a, v, x)
  {
    var n := |evs| - 1;
    r' := if Registers(evs, m, n) then n else r;
    if m in Play(evs[..n]) && r' == r && !Registers(evs, m, n) {
      PedigreeCarries(evs, m, r, a, v, x);
    }
  }

  lemma PedigreeAfterApply(evs: seq<Event>, m: MediaId, r: nat, a: nat, v: nat, x: nat) returns (a': nat)
    requires evs != [] && evs[|evs| - 1].Apply? && Pedigree(evs[..|evs| - 1], m, r, a, v, x)
    ensures Pedigree(evs, m, r, a', v, x)
  {
    var n := |evs| - 1;
    a' := if Applies(evs, m, n) then n else a;
    if m in Play(evs[..n]) {
      PedigreeCarries(evs, m, r, a, v, x);
    }
  }

  lemma PedigreeAfterMark(evs: seq<Event>, m: MediaId, r: nat, a: nat, v: nat, x: nat) returns (v': nat, x': nat)
    requires evs != [] && (evs[|evs| - 1].Verify? || evs[|evs| - 1].Activate?) && Pedigree(evs[..|evs| - 1], m, r, a, v, x)
    ensures Pedigree(evs, m, r, a, v', x')
  {
    var n := |evs| - 1;
    v' := if Verifies(evs, m, n) then n else v;
    x' := if Activates(evs, m, n) then n else x;
    if m in Play(evs[..n]) {
      PedigreeCarries(evs, m, r, a, v, x);
    }
  }

  // ── leaving the campaign ───────────────────────────────────────────────────

  lemma {:induction false} RowsStay(evs: seq<Event>, m: MediaId, j: nat)
    requires j <= |evs| && m in Play(evs[..j])
    ensures m in Play(evs)
  {
    if j == |evs| {
      assert evs[..j] == evs;
    } else {
      assert evs[..|evs| - 1][..j] == evs[..j];
      RowsStay(evs[..|evs| - 1], m, j);
    }
  }

  predicate Delists(evs: seq<Event>, m: MediaId, j: nat) {
    j < |evs| && evs[j].Sync? && evs[j].config.Some? && m !in evs[j].config.value
  }

  /** Once out of the campaign, a media stays parked until it is registered again. */
  lemma {:induction false} ParkedStays(evs: seq<Event>, m: MediaId, j: nat)
    requires Delists(evs, m, j) && m in Play(evs[..j]) && !Play(evs[..j])[m].state.Invalid?
    requires NoneRegistersAfter(evs, m, j)
    ensures m in Play(evs) && Play(evs)[m].state.Paused?
  {
    var n := |evs| - 1;
    if j < n {
      var front := evs[..n];
      assert front[..j] == evs[..j];
      forall k | j < k ensures !Registers(front, m, k) {
        if k < n { FrontAgrees(evs, m, k); }
      }
      ParkedStays(front, m, j);
      assert !Registers(evs, m, n);
    }
  }

  lemma NotDelistedSince(evs: seq<Event>, m: MediaId, r: nat, j: nat)
    requires m in Play(evs) && Play(evs)[m].state.Active? && Registers(evs, m, r) && NoneRegistersAfter(evs, m, r) && r < j
    ensures !Delists(evs, m, j)
  {
    if Delists(evs, m, j) {
      assert evs[..r + 1][..r] == evs[..r] && m in Play(evs[..r + 1]);
      assert evs[..j][..r + 1] == evs[..r + 1];
      RowsStay(evs[..j], m, r + 1);
      var r', a, v, x := EveryRowHasAPedigree(evs[..j], m);
      ParkedStays(evs, m, j);
      assert false;
    }
  }

  /** The book is enough: a media that is new, parked or waiting goes live by being listed, applied,
      verified and activated in a row, on the baseline that was applied. */
  lemma ByTheBookGoesLive(evs: seq<Event>, campaign: Campaign, m: MediaId, cutover: int, count: nat, source: set<string>, now: nat)
    requires m in campaign && (m in Play(evs) ==> Play(evs)[m].state.Paused? || Play(evs)[m].state.PendingBaseline?)
    ensures var live := evs + [Sync(Some(campaign))] + [Apply(m, cutover, count, source, now)] + [Verify(m, now)] + [Activate(m)];
            && m in Play(live)
            && Play(live)[m] == Target(Active, Some(cutover), Some(count), Some(source), Some(now), Some(now), campaign, Some(campaign))
  {
    var e1 := evs + [Sync(Some(campaign))];
    var e2 := e1 + [Apply(m, cutover, count, source, now)];
    var e3 := e2 + [Verify(m, now)];
    var e4 := e3 + [Activate(m)];
    assert e1[..|evs|] == evs && e2[..|e1|] == e1 && e3[..|e2|] == e2 && e4[..|e3|] == e3;
    assert Play(e1)[m].state.PendingBaseline? && Play(e1)[m].campaignHash == campaign;
    assert Play(e2)[m] == Target(PendingBaseline, Some(cutover), Some(count), Some(source), Some(now), None, campaign, Some(campaign));
    assert Play(e3)[m] == Play(e2)[m].(verifiedAt := Some(now));
  }

  /** A media is ACTIVE only if, after its last registration, a baseline was applied, then verified
      with no apply since, then activated while the campaign was the one the baseline was taken for; and
      it has been in the campaign ever since that registration. */
  lemma ActiveOnlyByTheBook(evs: seq<Event>, m: MediaId) returns (r: nat, a: nat, v: nat, x: nat)
    requires m in Play(evs) && Play(evs)[m].state.Active?
    ensures r < a < v < x < |evs|
    ensures Registers(evs, m, r) && Applies(evs, m, a) && Verifies(evs, m, v) && Activates(evs, m, x)
    ensures forall j :: r < j ==> !Registers(evs, m, j)
    ensures forall j :: a < j ==> !Applies(evs, m, j)
    ensures Play(evs[..x])[m].baselineHash == Some(Play(evs[..x])[m].campaignHash)
    ensures Play(evs)[m].sourceHash == Some(evs[a].source)
    ensures forall j | r < j < |evs| && evs[j].Sync? && evs[j].config.Some? :: m in evs[j].config.value
  {
    r, a, v, x := EveryRowHasAPedigree(evs, m);
    forall j | r < j < |evs| && evs[j].Sync? && evs[j].config.Some? ensures m in evs[j].config.value {
      NotDelistedSince(evs, m, r, j);
    }
  }

  // ── the table itself ───────────────────────────────────────────────────────

  class CommentPollTargets {
    var targets: Targets

    constructor ()
      ensures targets == map[]
    {
      targets := map[];
    }

    /** The three loops of sync_from_campaign_json, each rewriting rows one by one. */
    method SyncFromCampaign(config: Option<Campaign>) returns (ok: bool)
      modifies this
      ensures ok == config.Some?
      ensures targets == Step(old(targets), Sync(config))
      ensures if ok then SyncedRight(old(targets), config.value, targets) else targets == old(targets)
    {
      if config.None? {
        return false;
      }
      var campaign, existing := config.value, targets;
      var todo := campaign - existing.Keys;
      while todo != {}
        invariant todo <= campaign - existing.Keys
        invariant targets.Keys == existing.Keys + (campaign - existing.Keys - todo)
        invariant forall m :: m in targets ==> targets[m] == if m in existing then existing[m] else NewTarget(campaign)
        decreases todo
      {
        var m :| m in todo;
        targets := targets[m := NewTarget(campaign)];
        todo := todo - {m};
      }
      todo := existing.Keys - campaign;
      while todo != {}
        invariant todo <= existing.Keys - campaign
        invariant targets.Keys == existing.Keys + campaign
        invariant forall m :: m in targets ==>
                    targets[m] == if (m in campaign && m in existing) || m in todo then existing[m] else SyncOne(existing, campaign, m)
        decreases todo
      {
        var m :| m in todo;
        if !existing[m].state.Paused? && !existing[m].state.Invalid? {
          targets := targets[m := targets[m].(state := Paused)];
        }
        todo := todo - {m};
      }
      todo := campaign * existing.Keys;
      while todo != {}
        invariant todo <= campaign * existing.Keys
        invariant targets.Keys == existing.Keys + campaign
        invariant forall m :: m in targets ==> targets[m] == if m in todo then existing[m] else SyncOne(existing, campaign, m)
        decreases todo
      {
        var m :| m in todo;
        if existing[m].state.Paused? {
          targets := targets[m := NewTarget(campaign)];
        } else {
          targets := targets[m := targets[m].(campaignHash := campaign)];
        }
        todo := todo - {m};
      }
      return true;
    }

    method ApplyBaseline(m: MediaId, cutover: int, count: nat, source: set<string>, now: nat) returns (ok: bool)
      modifies this
      ensures ok <==> m in old(targets) && old(targets)[m].state.PendingBaseline?
      ensures ok ==> targets == old(targets)[m := Target(PendingBaseline, Some(cutover), Some(count), Some(source), Some(now), None,
                                                         old(targets)[m].campaignHash, Some(old(targets)[m].campaignHash))]
      ensures targets == Step(old(targets), Apply(m, cutover, count, source, now))
    {
      if m !in targets || !targets[m].state.PendingBaseline? {
        return false;
      }
      var t := targets[m];
      targets := targets[m := t.(cutoverAt := Some(cutover), baselineCount := Some(count), sourceHash := Some(source),
                                 appliedAt := Some(now), verifiedAt := None, baselineHash := Some(t.campaignHash))];
      return true;
    }

    method VerifyBaseline(m: MediaId, now: nat) returns (ok: bool)
      modifies this
      ensures ok <==> m in old(targets) && old(targets)[m].state.PendingBaseline? && old(targets)[m].appliedAt.Some?
      ensures ok ==> targets == old(targets)[m := old(targets)[m].(verifiedAt := Some(now))]
      ensures targets == Step(old(targets), Verify(m, now))
    {
      ok := m in targets && targets[m].state.PendingBaseline? && targets[m].appliedAt.Some?;
      if ok {
        targets := targets[m := targets[m].(verifiedAt := Some(now))];
      }
    }

    method ActivateMedia(m: MediaId) returns (ok: bool)
      modifies this
      ensures ok <==> m in old(targets) && old(targets)[m].state.PendingBaseline? && old(targets)[m].verifiedAt.Some?
                      && old(targets)[m].baselineHash == Some(old(targets)[m].campaignHash)
      ensures ok ==> targets == old(targets)[m := old(targets)[m].(state := Active)]
      ensures targets == Step(old(targets), Activate(m))
    {
      if m !in targets || !targets[m].state.PendingBaseline? || targets[m].verifiedAt.None? {
        return false;
      }
      if targets[m].baselineHash != Some(targets[m].campaignHash) {
        return false;
      }
      targets := targets[m := targets[m].(state := Active)];
      return true;
    }
  }
}
