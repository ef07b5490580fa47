/** The event inbox of modules/comment/comment_event_store.py.

    `Rows` is the SQL table; every statement is a function from table to table, so that the
    protocols built on the store can be written as step systems.  The class at the end is the
    store as the source has it: a table updated in place, one method per store function. */
module EventStore {
  import opened Wrappers

  datatype EventKey = EventKey(source: string, id: string)
  datatype Status = Processing | Completed | Dead
  datatype Effect = PrivateReply | Telegram
  datatype EffectStatus = NotApplicable | Started | Sending | Done | Unknown
  datatype AirtableStatus = Pending | Recorded | RetryPending | RetryEnqueueFailed
  datatype Tag = Untagged | ShadowSeen | PreCutoverSuppressed

  datatype Row = Row(
    status: Status,
    token: nat,
    claimedBy: string,
    lease: nat,
    privateReply: EffectStatus,
    telegram: EffectStatus,
    airtable: AirtableStatus,
    manualReview: bool,
    retryTask: Option<nat>,
    lastError: string,
    tag: Tag)
  {
    function Of(e: Effect): EffectStatus {
      match e
      case PrivateReply => privateReply
      case Telegram => telegram
    }

    function With(e: Effect, s: EffectStatus): Row {
      match e
      case PrivateReply => this.(privateReply := s)
      case Telegram => this.(telegram := s)
    }

    /** The WHERE clause of the reclaiming UPDATE. */
    predicate Stale(now: nat) {
      status.Processing? && lease < now && tag.Untagged?
    }

    /** No claim can ever take this row again: tagged, or out of PROCESSING. */
    predicate Closed() {
      !tag.Untagged? || !status.Processing?
    }
  }

  type Rows = map<EventKey, Row>

  function NewRow(status: Status, token: nat, owner: string, lease: nat, tag: Tag): Row {
    Row(status, token, owner, lease, NotApplicable, NotApplicable, Pending, false, None, "", tag)
  }

  // ── claim ──────────────────────────────────────────────────────────────────

  /** INSERT OR IGNORE. */
  function Insert(rows: Rows, k: EventKey, row: Row): Rows {
    if k in rows then rows else rows[k := row]
  }

  function Abandon(s: EffectStatus): EffectStatus {
    if s.Started? then Unknown else s
  }

  /** The row a stale claim is taken over with: an effect left STARTED has an unknown outcome. */
  function TakenOver(r: Row, token: nat, owner: string, lease: nat): Row {
    r.(token := token, claimedBy := owner, lease := lease,
       privateReply := Abandon(r.privateReply), telegram := Abandon(r.telegram),
       manualReview := r.manualReview || r.privateReply.Started? || r.telegram.Started?)
  }

  /** The second statement of try_claim. */
  function Reclaim(rows: Rows, k: EventKey, token: nat, owner: string, now: nat, lease: nat): Rows {
    if k in rows && rows[k].Stale(now) then rows[k := TakenOver(rows[k], token, owner, lease)] else rows
  }

  /** try_claim as a whole: the new table and whether the caller now owns the event. */
  function TryClaim(rows: Rows, k: EventKey, token: nat, owner: string, now: nat, seconds: nat, shadow: bool): (Rows, bool) {
    if k !in rows then
      (Insert(rows, k, NewRow(Processing, token, owner, now + seconds, if shadow then ShadowSeen else Untagged)), true)
    else if shadow then (rows, false)
    else (Reclaim(rows, k, token, owner, now, now + seconds), rows[k].Stale(now))
  }

  function Suppress(rows: Rows, k: EventKey, token: nat, owner: string, now: nat): Rows {
    Insert(rows, k, NewRow(Completed, token, owner, now, PreCutoverSuppressed))
  }

  // ── fenced updates ─────────────────────────────────────────────────────────

  predicate Owns(rows: Rows, k: EventKey, token: nat) {
    k in rows && rows[k].token == token
  }

  function SetEffect(rows: Rows, k: EventKey, token: nat, e: Effect, s: EffectStatus): Rows {
    if Owns(rows, k, token) then rows[k := rows[k].With(e, s)] else rows
  }

  function MarkUnknown(rows: Rows, k: EventKey, token: nat, e: Effect): Rows {
    if Owns(rows, k, token) then rows[k := rows[k].With(e, Unknown).(manualReview := true)] else rows
  }

  predicate MayBegin(rows: Rows, k: EventKey, token: nat, e: Effect, from: set<EffectStatus>) {
    Owns(rows, k, token) && rows[k].Of(e) in from
  }

  function BeginEffect(rows: Rows, k: EventKey, token: nat, e: Effect, from: set<EffectStatus>): Rows {
    if MayBegin(rows, k, token, e, from) then rows[k := rows[k].With(e, Sending)] else rows
  }

  function FailEffect(rows: Rows, k: EventKey, token: nat, e: Effect): Rows {
    if MayBegin(rows, k, token, e, {Sending}) then rows[k := rows[k].With(e, Started)] else rows
  }

  function MarkRecorded(rows: Rows, k: EventKey, token: nat): Rows {
    if Owns(rows, k, token) then rows[k := rows[k].(airtable := Recorded, status := Completed)] else rows
  }

  function MarkRetryPending(rows: Rows, k: EventKey, token: nat, task: nat): Rows {
    if Owns(rows, k, token) then rows[k := rows[k].(airtable := RetryPending, retryTask := Some(task))] else rows
  }

  function MarkEnqueueFailed(rows: Rows, k: EventKey, token: nat, error: string): Rows {
    if Owns(rows, k, token)
    then rows[k := rows[k].(airtable := RetryEnqueueFailed, lastError := if |error| > 500 then error[..500] else error)]
    else rows
  }

  /** A write to one effect is read back there, and nowhere else. */
  lemma EffectsAreApart(r: Row, e: Effect, s: EffectStatus)
    ensures r.With(e, s).Of(e) == s && forall f: Effect | f != e :: r.With(e, s).Of(f) == r.Of(f)
    ensures r.With(e, s) == r.(privateReply := r.With(e, s).privateReply, telegram := r.With(e, s).telegram)
  {
  }

  // ── updates that are not fenced by a token ─────────────────────────────────

  function RetryCompleted(rows: Rows, k: EventKey): Rows {
    if k in rows && rows[k].airtable.RetryPending?
    then rows[k := rows[k].(airtable := Recorded, status := Completed)]
    else rows
  }

  function MarkDead(rows: Rows, k: EventKey): Rows {
    if k in rows then rows[k := rows[k].(status := Dead)] else rows
  }

  // ── what every statement keeps ─────────────────────────────────────────────

  /** One SQL statement of the store, each atomic on its own; try_claim is an OpInsert followed, when
      that is ignored, by an OpReclaim.  `reclaim_stale` is not on the runtime path and is not here. */
  datatype Op =
    | OpInsert(row: Row)
    | OpReclaim(token: nat, owner: string, now: nat, lease: nat)
    | OpSetEffect(token: nat, e: Effect, s: EffectStatus)
    | OpUnknown(token: nat, e: Effect)
    | OpBegin(token: nat, e: Effect, from: set<EffectStatus>)
    | OpFail(token: nat, e: Effect)
    | OpRecorded(token: nat)
    | OpRetryPending(token: nat, task: nat)
    | OpEnqueueFailed(token: nat, error: string)
    | OpRetryCompleted
    | OpDead

  function Run(rows: Rows, k: EventKey, op: Op): Rows {
    match op
    case OpInsert(row) => Insert(rows, k, row)
    case OpReclaim(t, owner, now, lease) => Reclaim(rows, k, t, owner, now, lease)
    case OpSetEffect(t, e, s) => SetEffect(rows, k, t, e, s)
    case OpUnknown(t, e) => MarkUnknown(rows, k, t, e)
    case OpBegin(t, e, from) => BeginEffect(rows, k, t, e, from)
    case OpFail(t, e) => FailEffect(rows, k, t, e)
    case OpRecorded(t) => MarkRecorded(rows, k, t)
    case OpRetryPending(t, task) => MarkRetryPending(rows, k, t, task)
    case OpEnqueueFailed(t, error) => MarkEnqueueFailed(rows, k, t, error)
    case OpRetryCompleted => RetryCompleted(rows, k)
    case OpDead => MarkDead(rows, k)
  }

  function RunAll(rows: Rows, calls: seq<(EventKey, Op)>): Rows {
    if calls == [] then rows
    else Run(RunAll(rows, calls[..|calls| - 1]), calls[|calls| - 1].0, calls[|calls| - 1].1)
  }

  /** Does this statement, in this state, give its caller ownership of `k`? */
  predicate Grants(rows: Rows, k: EventKey, call: (EventKey, Op)) {
    call.0 == k
    && ((call.1.OpInsert? && k !in rows) || (call.1.OpReclaim? && k in rows && rows[k].Stale(call.1.now)))
  }

  /** Once closed, a row can never be claimed again, by any interleaving of any statements. */
  lemma {:induction false} ClosedForever(rows: Rows, calls: seq<(EventKey, Op)>, k: EventKey)
    requires k in rows && rows[k].Closed()
    ensures k in RunAll(rows, calls) && RunAll(rows, calls)[k].Closed()
    ensures RunAll(rows, calls)[k].tag == rows[k].tag && RunAll(rows, calls)[k].token == rows[k].token
    ensures forall call: (EventKey, Op) :: !Grants(RunAll(rows, calls), k, call)
  {
    if calls != [] {
      ClosedForever(rows, calls[..|calls| - 1], k);
    }
  }

  /** `lease` has not run out at the time of any reclaim of `k` in `calls`. */
  predicate LeaseHolds(lease: nat, k: EventKey, calls: seq<(EventKey, Op)>) {
    forall i | 0 <= i < |calls| && calls[i].0 == k && calls[i].1.OpReclaim? :: calls[i].1.now <= lease
  }

  /** Mutual exclusion: until the lease runs out the owner keeps its token, whatever anyone does,
      and nobody else is granted the event. */
  lemma {:induction false} OwnerUntilLeaseEnds(rows: Rows, calls: seq<(EventKey, Op)>, k: EventKey)
    requires k in rows && LeaseHolds(rows[k].lease, k, calls)
    ensures k in RunAll(rows, calls)
    ensures RunAll(rows, calls)[k].token == rows[k].token && RunAll(rows, calls)[k].lease == rows[k].lease
    ensures forall call: (EventKey, Op) ::
              (call.1.OpReclaim? ==> call.1.now <= rows[k].lease) ==> !Grants(RunAll(rows, calls), k, call)
  {
    if calls != [] {
      var front := calls[..|calls| - 1];
      assert forall i | 0 <= i < |front| :: front[i] == calls[i];
      OwnerUntilLeaseEnds(rows, front, k);
    }
  }

  /** Of two callers that try to begin the same effect, the second is turned away. */
  lemma BeginIsExclusive(rows: Rows, k: EventKey, token: nat, e: Effect, from: set<EffectStatus>, from': set<EffectStatus>)
    requires MayBegin(rows, k, token, e, from) && Sending !in from'
    ensures !MayBegin(BeginEffect(rows, k, token, e, from), k, token, e, from')
    ensures FailEffect(BeginEffect(rows, k, token, e, from), k, token, e) == rows[k := rows[k].With(e, Started)]
  {
  }

  // ── the store itself ───────────────────────────────────────────────────────

  class CommentEventStore {
    var rows: Rows
    var nextToken: nat   // uuid4: a token never issued before

    ghost predicate Valid() reads this {
      forall k :: k in rows ==> rows[k].token < nextToken
    }

    constructor ()
      ensures Valid() && rows == map[]
    {
      rows := map[];
      nextToken := 0;
    }

    method TryClaimEvent(k: EventKey, owner: string, now: nat, seconds: nat, shadow: bool) returns (token: Option<nat>)
      requires Valid()
      modifies this
      ensures Valid() && nextToken == old(nextToken) + 1
      ensures rows == TryClaim(old(rows), k, old(nextToken), owner, now, seconds, shadow).0
      ensures token.Some? <==> k !in old(rows) || (!shadow && old(rows)[k].status.Processing? && old(rows)[k].lease < now && old(rows)[k].tag.Untagged?)
      ensures k !in old(rows) ==>
                rows == old(rows)[k := Row(Processing, old(nextToken), owner, now + seconds, NotApplicable, NotApplicable, Pending,
                                           false, None, "", if shadow then ShadowSeen else Untagged)]
      ensures token.Some? && k in old(rows) ==>
                var r, r' := old(rows)[k], rows[k];
                && rows == old(rows)[k := r'] && r' == r.(token := r'.token, claimedBy := owner, lease := now + seconds,
                                                          privateReply := r'.privateReply, telegram := r'.telegram, manualReview := r'.manualReview)
                && (forall e: Effect :: r'.Of(e) == if r.Of(e).Started? then Unknown else r.Of(e))
                && (r'.manualReview <==> r.manualReview || exists e: Effect :: r.Of(e).Started?)
      ensures token.Some? ==> token.value == old(nextToken) && Owns(rows, k, token.value)
      ensures token.Some? ==> forall t: nat | t < old(nextToken) :: !Owns(rows, k, t)
      ensures token.Some? ==> forall j | j in rows && j != k :: !Owns(rows, j, token.value)
      ensures token.None? ==> rows == old(rows)
    {
      var t := nextToken;
      nextToken := nextToken + 1;
      if k !in rows {
        rows := rows[k := NewRow(Processing, t, owner, now + seconds, if shadow then ShadowSeen else Untagged)];
        return Some(t);
      }
      if shadow {
        return None;
      }
      if rows[k].Stale(now) {
        var r := rows[k];
        rows := rows[k := TakenOver(r, t, owner, now + seconds)];
        assert r.privateReply == r.Of(PrivateReply) && r.telegram == r.Of(Telegram);
        return Some(t);
      }
      return None;
    }

    method SuppressPreCutover(k: EventKey, owner: string, now: nat) returns (inserted: bool)
      requires Valid()
      modifies this
      ensures Valid() && rows == Suppress(old(rows), k, old(nextToken), owner, now)
      ensures inserted <==> k !in old(rows)
      ensures inserted ==>
                rows == old(rows)[k := Row(Completed, old(nextToken), owner, now, NotApplicable, NotApplicable, Pending, false, None, "", PreCutoverSuppressed)]
      ensures inserted ==> rows[k].Closed()
      ensures !inserted ==> rows == old(rows)
    {
      inserted := k !in rows;
      if inserted {
        rows := rows[k := NewRow(Completed, nextToken, owner, now, PreCutoverSuppressed)];
      }
      nextToken := nextToken + 1;
    }

    method MarkEffect(k: EventKey, token: nat, e: Effect, s: EffectStatus) returns (ok: bool)
      requires Valid()
      modifies this`rows
      ensures Valid() && rows == SetEffect(old(rows), k, token, e, s)
      ensures ok == Owns(old(rows), k, token)
      ensures ok ==> rows[k].Of(e) == s && rows == old(rows)[k := old(rows)[k].With(e, s)]
      ensures !ok ==> rows == old(rows)
    {
      ok := k in rows && rows[k].token == token;
      if ok {
        rows := rows[k := rows[k].With(e, s)];
      }
    }

    method TryBeginEffect(k: EventKey, token: nat, e: Effect, from: set<EffectStatus>) returns (ok: bool)
      requires Valid()
      modifies this`rows
      ensures Valid() && rows == BeginEffect(old(rows), k, token, e, from)
      ensures ok == MayBegin(old(rows), k, token, e, from)
      ensures ok <==> k in old(rows) && old(rows)[k].token == token && old(rows)[k].Of(e) in from
      ensures ok ==> rows[k].Of(e).Sending? && rows == old(rows)[k := old(rows)[k].With(e, Sending)]
      ensures !ok ==> rows == old(rows)
    {
      ok := k in rows && rows[k].token == token && rows[k].Of(e) in from;
      if ok {
        rows := rows[k := rows[k].With(e, Sending)];
      }
    }

    method FinishEffectFailed(k: EventKey, token: nat, e: Effect) returns (ok: bool)
      requires Valid()
      modifies this`rows
      ensures Valid() && rows == FailEffect(old(rows), k, token, e)
      ensures ok <==> rows != old(rows)
      ensures ok <==> k in old(rows) && old(rows)[k].token == token && old(rows)[k].Of(e).Sending?
      ensures ok ==> rows[k].Of(e).Started? && rows == old(rows)[k := old(rows)[k].With(e, Started)]
    {
      ok := k in rows && rows[k].token == token && rows[k].Of(e).Sending?;
      if ok {
        rows := rows[k := rows[k].With(e, Started)];
        assert rows[k].Of(e).Started?;
      }
    }

    method MarkAirtableDone(k: EventKey, token: nat) returns (ok: bool)
      requires Valid()
      modifies this`rows
      ensures Valid() && rows == MarkRecorded(old(rows), k, token)
      ensures ok == Owns(old(rows), k, token)
      ensures ok ==> rows == old(rows)[k := old(rows)[k].(airtable := Recorded, status := Completed)]
      ensures !ok ==> rows == old(rows)
      ensures ok ==> rows[k].Closed()
    {
      ok := k in rows && rows[k].token == token;
      if ok {
        rows := rows[k := rows[k].(airtable := Recorded, status := Completed)];
      }
    }

    method MarkEffectUnknown(k: EventKey, token: nat, e: Effect) returns (ok: bool)
      requires Valid()
      modifies this`rows
      ensures Valid() && rows == MarkUnknown(old(rows), k, token, e)
      ensures ok == Owns(old(rows), k, token)
      ensures ok ==> rows[k].Of(e).Unknown? && rows[k].manualReview && rows == old(rows)[k := old(rows)[k].With(e, Unknown).(manualReview := true)]
      ensures !ok ==> rows == old(rows)
    {
      ok := k in rows && rows[k].token == token;
      if ok {
        rows := rows[k := rows[k].With(e, Unknown).(manualReview := true)];
      }
    }

    method MarkAirtableRetryPending(k: EventKey, token: nat, task: nat) returns (ok: bool)
      requires Valid()
      modifies this`rows
      ensures Valid() && rows == MarkRetryPending(old(rows), k, token, task)
      ensures ok == Owns(old(rows), k, token)
      ensures ok ==> rows == old(rows)[k := old(rows)[k].(airtable := RetryPending, retryTask := Some(task))]
      ensures !ok ==> rows == old(rows)
    {
      ok := k in rows && rows[k].token == token;
      if ok {
        rows := rows[k := rows[k].(airtable := RetryPending, retryTask := Some(task))];
      }
    }

    method MarkAirtableEnqueueFailed(k: EventKey, token: nat, error: string) returns (ok: bool)
      requires Valid()
      modifies this`rows
      ensures Valid() && rows == MarkEnqueueFailed(old(rows), k, token, error)
      ensures ok == Owns(old(rows), k, token)
      ensures ok ==> rows[k].lastError <= error && |rows[k].lastError| == (if |error| < 500 then |error| else 500)
                     && rows == old(rows)[k := old(rows)[k].(airtable := RetryEnqueueFailed, lastError := rows[k].lastError)]
      ensures !ok ==> rows == old(rows)
    {
      ok := k in rows && rows[k].token == token;
      if ok {
        rows := rows[k := rows[k].(airtable := RetryEnqueueFailed, lastError := if |error| > 500 then error[..500] else error)];
      }
    }

    /** mark_dead: whoever calls it, whatever the state. */
    method Kill(k: EventKey)
      requires Valid()
      modifies this`rows
      ensures Valid() && rows == MarkDead(old(rows), k)
      ensures k in rows ==> rows[k].Closed()
      ensures k in old(rows) ==> rows == old(rows)[k := old(rows)[k].(status := Dead)]
      ensures k !in old(rows) ==> rows == old(rows)
    {
      if k in rows {
        rows := rows[k := rows[k].(status := Dead)];
      }
    }

    method MarkAirtableRetryCompleted(k: EventKey) returns (ok: bool)
      requires Valid()
      modifies this`rows
      ensures Valid() && rows == RetryCompleted(old(rows), k)
      ensures ok <==> k in old(rows) && old(rows)[k].airtable.RetryPending?
      ensures ok ==> rows == old(rows)[k := old(rows)[k].(airtable := Recorded, status := Completed)]
      ensures !ok ==> rows == old(rows)
    {
      ok := k in rows && rows[k].airtable.RetryPending?;
      if ok {
        rows := rows[k := rows[k].(airtable := Recorded, status := Completed)];
      }
    }
  }
}
