/** The in-memory reservations of modules/dm/dm_auto_reply.py that keep a buyer from being answered twice
    in a row: the awaiting-product, persona, template_en and handoff maps, and the hold after an unknown
    outcome.  They are pruned when they grow; this is about what pruning may not change.

    Times are readings of one clock, in microseconds, as exact as the source's. */
module ReplySlots {
  import opened Wrappers

  type Key = string
  type Slots = map<Key, int>

  const PRUNE_ABOVE := 5000
  const SECOND := 1_000_000
  const UNKNOWN_HOLD := 60 * 60 * SECOND

  /** A second reservation within `window` is refused; an entry is prunable from the age of `stale` on
      (or above it). */
  datatype Policy = Policy(window: int, stale: int, inclusive: bool) {
    predicate Blocks(last: int, now: int) { now - last < window }
    predicate Prunable(last: int, now: int) { if inclusive then now - last >= stale else now - last > stale }

    /** Only what no longer blocks is pruned. */
    predicate Sane() { window <= if inclusive then stale else stale + 1 }
  }

  const AWAITING_PRODUCT := Policy(3 * 60 * SECOND, 3600 * SECOND, false)
  const PERSONA := Policy(3 * 60 * SECOND, 3600 * SECOND, false)
  const HANDOFF := Policy(24 * 3600 * SECOND, 24 * 3600 * SECOND, true)
  /** The burst window is configurable, in whole seconds, and may even be negative. */
  function TemplateEn(burst: int): Policy { Policy(burst * SECOND, 2 * (if burst > 1 then burst else 1) * SECOND, false) }

  lemma PoliciesAreSane(burst: int)
    ensures AWAITING_PRODUCT.window == PERSONA.window == 180_000_000 && HANDOFF.window == 86_400_000_000 && TemplateEn(burst).window == burst * 1_000_000
    ensures AWAITING_PRODUCT.Sane() && PERSONA.Sane() && HANDOFF.Sane() && TemplateEn(burst).Sane()
  {
  }

  lemma SaneMeans(p: Policy)
    ensures p.Sane() <==> forall last, now :: p.Prunable(last, now) ==> !p.Blocks(last, now)
  {
    if !p.Sane() {
      var age := if p.inclusive then p.stale else p.stale + 1;
      assert p.Prunable(0, age) && p.Blocks(0, age);
    }
  }

  // ── one call ───────────────────────────────────────────────────────────────

  datatype State = State(slots: Slots, holds: Slots)

  predicate Held(holds: Slots, k: Key, now: int) { k in holds && now - holds[k] < UNKNOWN_HOLD }
  predicate Free(p: Policy, s: State, k: Key, now: int) {
    !Held(s.holds, k, now) && !(k in s.slots && p.Blocks(s.slots[k], now))
  }

  function Prune(p: Policy, m: Slots, now: int): Slots {
    if |m| > PRUNE_ABOVE then map k | k in m && !p.Prunable(m[k], now) :: m[k] else m
  }

  datatype Op =
    | TryReserve(k: Key)
    | Release(k: Key)
    | HoldAfterUnknown(k: Key)

  /** A call at time `now`: the maps after it, and whether it reserved. */
  function Call(p: Policy, s: State, op: Op, now: int): (State, bool) {
    match op
    case TryReserve(k) =>
      if Held(s.holds, k, now) then (s, false)
      else
        var holds := s.holds - {k};
        if k in s.slots && p.Blocks(s.slots[k], now) then (State(s.slots, holds), false)
        else (State(Prune(p, s.slots[k := now], now), holds), true)
    case Release(k) => (s.(slots := s.slots - {k}), false)
    case HoldAfterUnknown(k) => (s.(holds := s.holds[k := now]), false)
  }

  /** The same without any pruning or tidying: what the maps are meant to remember. */
  function Ideal(p: Policy, s: State, op: Op, now: int): (State, bool) {
    match op
    case TryReserve(k) => if Free(p, s, k, now) then (s.(slots := s.slots[k := now]), true) else (s, false)
    case Release(k) => (s.(slots := s.slots - {k}), false)
    case HoldAfterUnknown(k) => (s.(holds := s.holds[k := now]), false)
  }

  class Reservations {
    const policy: Policy
    var slots: Slots
    var holds: Slots

    constructor (policy: Policy)
      ensures this.policy == policy && Value() == State(map[], map[])
    {
      this.policy, slots, holds := policy, map[], map[];
    }

    function Value(): State reads this { State(slots, holds) }

    method TryReserve(k: Key, now: int) returns (ok: bool)
      modifies this
      ensures (Value(), ok) == Call(policy, old(Value()), Op.TryReserve(k), now)
    {
      if k in holds {
        if now - holds[k] < UNKNOWN_HOLD {
          return false;
        }
        holds := holds - {k};
      }
      assert holds == old(holds) - {k};
      if k in slots && now - slots[k] < policy.window {
        return false;
      }
      slots := slots[k := now];
      if |slots| > PRUNE_ABOVE {
        DropStale(now);
      }
      return true;
    }

    method DropStale(now: int)
      requires |slots| > PRUNE_ABOVE
      modifies this`slots
      ensures slots == Prune(policy, old(slots), now)
    {
      var stale := set k | k in slots && policy.Prunable(slots[k], now);
      ghost var all := stale;
      while stale != {}
        invariant stale <= all
        invariant slots == old(slots) - (all - stale)
        decreases |stale|
      {
        var k :| k in stale;
        slots := slots - {k};
        stale := stale - {k};
      }
    }

    method Release(k: Key)
      modifies this`slots
      ensures Value() == Call(policy, old(Value()), Op.Release(k), 0).0
    {
      slots := slots - {k};
    }

    method HoldAfterUnknown(k: Key, now: int)
      modifies this`holds
      ensures Value() == Call(policy, old(Value()), Op.HoldAfterUnknown(k), now).0
    {
      holds := holds[k := now];
    }
  }

  // ── runs ───────────────────────────────────────────────────────────────────

  type Run = seq<(Op, int)>

  predicate ClockForward(run: Run) { forall i, j | 0 <= i < j < |run| :: run[i].1 <= run[j].1 }

  function After(p: Policy, run: Run): State {
    if run == [] then State(map[], map[]) else Call(p, After(p, run[..|run| - 1]), run[|run| - 1].0, run[|run| - 1].1).0
  }

  function IdealAfter(p: Policy, run: Run): State {
    if run == [] then State(map[], map[]) else Ideal(p, IdealAfter(p, run[..|run| - 1]), run[|run| - 1].0, run[|run| - 1].1).0
  }

  predicate Answer(p: Policy, run: Run, i: nat)
    requires i < |run|
  {
    Call(p, After(p, run[..i]), run[i].0, run[i].1).1
  }

  predicate IdealAnswer(p: Policy, run: Run, i: nat)
    requires i < |run|
  {
    Ideal(p, IdealAfter(p, run[..i]), run[i].0, run[i].1).1
  }

  /** What was forgotten by `now` is of no consequence from `now` on. */
  ghost predicate Remembers(p: Policy, s: State, full: State, now: int) {
    && Covers(p, s.slots, full.slots, now)
    && HoldsCover(s.holds, full.holds, now)
  }

  lemma OneCall(p: Policy, s: State, full: State, op: Op, now: int)
    requires p.Sane() && Remembers(p, s, full, now)
    ensures Call(p, s, op, now).1 == Ideal(p, full, op, now).1
    ensures Remembers(p, Call(p, s, op, now).0, Ideal(p, full, op, now).0, now)
  {
    if op.TryReserve? {
      OneReservation(p, s, full, op.k, now);
    }
  }

  lemma OneReservation(p: Policy, s: State, full: State, k: Key, now: int)
    requires p.Sane() && Remembers(p, s, full, now)
    ensures Call(p, s, TryReserve(k), now).1 == Ideal(p, full, TryReserve(k), now).1
    ensures Remembers(p, Call(p, s, TryReserve(k), now).0, Ideal(p, full, TryReserve(k), now).0, now)
  {
    HoldsRemembered(s.holds, full.holds, k, now);
    if Free(p, s, k, now) {
      SlotsRemembered(p, s.slots, full.slots, k, now);
      FreeCall(p, s, full, k, now);
    }
  }

  /** Both reserve, and in this way. */
  lemma FreeCall(p: Policy, s: State, full: State, k: Key, now: int)
    requires Free(p, s, k, now) && Free(p, full, k, now)
    ensures Call(p, s, TryReserve(k), now) == (State(Prune(p, s.slots[k := now], now), s.holds - {k}), true)
    ensures Ideal(p, full, TryReserve(k), now) == (State(full.slots[k := now], full.holds), true)
  {
  }

  ghost predicate HoldsCover(m: Slots, full: Slots, now: int) {
    && (forall k :: k in m ==> k in full && m[k] == full[k])
    && (forall k :: k in full && k !in m ==> !Held(full, k, now))
  }

  /** A hold that has run out may be dropped. */
  lemma HoldsRemembered(m: Slots, full: Slots, k: Key, now: int)
    requires HoldsCover(m, full, now)
    ensures Held(m, k, now) == Held(full, k, now)
    ensures !Held(m, k, now) ==> HoldsCover(m - {k}, full, now)
  {
  }

  ghost predicate Covers(p: Policy, m: Slots, full: Slots, now: int) {
    && (forall k :: k in m ==> k in full && m[k] == full[k])
    && (forall k :: k in full && k !in m ==> !p.Blocks(full[k], now))
  }

  lemma SlotsRemembered(p: Policy, m: Slots, full: Slots, k: Key, now: int)
    requires p.Sane() && Covers(p, m, full, now)
    ensures Covers(p, Prune(p, m[k := now], now), full[k := now], now)
  {
    var m', full' := Prune(p, m[k := now], now), full[k := now];
    forall x | x in full' && x !in m' ensures !p.Blocks(full'[x], now) {
      if x in m[k := now] {
        assert p.Prunable(m[k := now][x], now);
      }
    }
  }

  lemma {:induction false} RemembersAlways(p: Policy, run: Run, now: int)
    requires p.Sane() && ClockForward(run) && forall i | 0 <= i < |run| :: run[i].1 <= now
    ensures Remembers(p, After(p, run), IdealAfter(p, run), now)
  {
    if run != [] {
      var front, last := run[..|run| - 1], run[|run| - 1];
      RemembersAlways(p, front, last.1);
      OneCall(p, After(p, front), IdealAfter(p, front), last.0, last.1);
    }
  }

  /** Pruning is invisible: under a clock that never goes back, every call of every run is answered as if
      nothing had ever been forgotten. */
  lemma PruningIsInvisible(p: Policy, run: Run, i: nat)
    requires p.Sane() && ClockForward(run) && i < |run|
    ensures Answer(p, run, i) == IdealAnswer(p, run, i)
  {
    RemembersAlways(p, run[..i], run[i].1);
    OneCall(p, After(p, run[..i]), IdealAfter(p, run[..i]), run[i].0, run[i].1);
  }

  predicate Reserves(p: Policy, run: Run, i: nat, k: Key) {
    i < |run| && run[i].0 == TryReserve(k) && Answer(p, run, i)
  }

  lemma IdealNext(p: Policy, run: Run, j: nat)
    requires j < |run|
    ensures IdealAfter(p, run[..j + 1]) == Ideal(p, IdealAfter(p, run[..j]), run[j].0, run[j].1).0
  {
    assert run[..j + 1][..j] == run[..j];
  }

  lemma EntryKept(p: Policy, s: State, op: Op, now: int, k: Key, since: int)
    requires k in s.slots && s.slots[k] >= since && now >= since && op != Release(k)
    ensures var s' := Ideal(p, s, op, now).0; k in s'.slots && s'.slots[k] >= since
  {
  }

  /** An entry stands until it is released, except that a later reservation renews it. */
  lemma {:induction false} EntryStands(p: Policy, run: Run, i: nat, j: nat, k: Key)
    requires p.Sane() && ClockForward(run) && Reserves(p, run, i, k) && i < j <= |run|
    requires forall m | i < m < j :: run[m].0 != Release(k)
    ensures k in IdealAfter(p, run[..j]).slots && IdealAfter(p, run[..j]).slots[k] >= run[i].1
  {
    IdealNext(p, run, j - 1);
    if j == i + 1 {
      PruningIsInvisible(p, run, i);
    } else {
      EntryStands(p, run, i, j - 1, k);
      EntryKept(p, IdealAfter(p, run[..j - 1]), run[j - 1].0, run[j - 1].1, k, run[i].1);
    }
  }

  /** Two reservations of one key with no release in between are at least the window apart. */
  lemma ReservationsAreApart(p: Policy, run: Run, i: nat, j: nat, k: Key)
    requires p.Sane() && ClockForward(run) && Reserves(p, run, i, k) && Reserves(p, run, j, k) && i < j
    requires forall m | i < m < j :: run[m].0 != Release(k)
    ensures run[j].1 - run[i].1 >= p.window
  {
    EntryStands(p, run, i, j, k);
    PruningIsInvisible(p, run, j);
  }

  lemma {:induction false} HoldStands(p: Policy, run: Run, i: nat, j: nat, k: Key)
    requires i < j <= |run| && ClockForward(run) && run[i].0 == HoldAfterUnknown(k)
    ensures k in IdealAfter(p, run[..j]).holds && IdealAfter(p, run[..j]).holds[k] >= run[i].1
  {
    assert run[..j][..j - 1] == run[..j - 1];
    if j > i + 1 {
      HoldStands(p, run, i, j - 1, k);
    }
  }

  /** After an unknown outcome nothing is reserved for that buyer for an hour, whatever is released. */
  lemma HoldIsKept(p: Policy, run: Run, i: nat, j: nat, k: Key)
    requires p.Sane() && ClockForward(run) && i < j < |run| && run[i].0 == HoldAfterUnknown(k) && Reserves(p, run, j, k)
    ensures run[j].1 - run[i].1 >= UNKNOWN_HOLD
  {
    HoldStands(p, run, i, j, k);
    PruningIsInvisible(p, run, j);
  }

  // ── exactly when a reservation is granted ──────────────────────────────────

  /** The entry of `k` is that of reservation `j`, not released since. */
  predicate EntryOf(p: Policy, run: Run, k: Key, j: nat) {
    j < |run| && Reserves(p, run, j, k) && forall m | j < m < |run| :: run[m].0 != Release(k)
  }

  lemma EarlierAnswers(p: Policy, run: Run, j: nat)
    requires run != [] && j < |run| - 1
    ensures Answer(p, run[..|run| - 1], j) == Answer(p, run, j) && run[..|run| - 1][j] == run[j]
  {
    assert run[..|run| - 1][..j] == run[..j];
  }

  /** An entry is new, or it was there and was not released. */
  lemma EntryStep(p: Policy, s: State, op: Op, now: int, k: Key)
    requires k in Ideal(p, s, op, now).0.slots
    ensures var s' := Ideal(p, s, op, now).0;
            || (op == TryReserve(k) && Ideal(p, s, op, now).1 && s'.slots[k] == now)
            || (k in s.slots && s'.slots[k] == s.slots[k] && op != Release(k))
  {
  }

  lemma {:induction false} EntryComesFrom(p: Policy, run: Run, k: Key) returns (j: nat)
    requires p.Sane() && ClockForward(run) && k in IdealAfter(p, run).slots
    ensures EntryOf(p, run, k, j) && IdealAfter(p, run).slots[k] == run[j].1
  {
    var n := |run| - 1;
    var front := run[..n];
    PruningIsInvisible(p, run, n);
    EntryStep(p, IdealAfter(p, front), run[n].0, run[n].1, k);
    if Reserves(p, run, n, k) && IdealAfter(p, run).slots[k] == run[n].1 {
      j := n;
    } else {
      j := EntryComesFrom(p, front, k);
      StillEntryOf(p, run, k, j);
    }
  }

  lemma StillEntryOf(p: Policy, run: Run, k: Key, j: nat)
    requires run != [] && EntryOf(p, run[..|run| - 1], k, j) && run[|run| - 1].0 != Release(k)
    ensures EntryOf(p, run, k, j) && run[..|run| - 1][j] == run[j]
  {
    var front := run[..|run| - 1];
    EarlierAnswers(p, run, j);
    forall m | j < m < |run| ensures run[m].0 != Release(k) {
      if m < |run| - 1 { assert front[m] == run[m]; }
    }
  }

  lemma {:induction false} HoldComesFrom(p: Policy, run: Run, k: Key) returns (j: nat)
    requires k in IdealAfter(p, run).holds
    ensures j < |run| && run[j].0 == HoldAfterUnknown(k) && IdealAfter(p, run).holds[k] == run[j].1
  {
    var n := |run| - 1;
    if run[n].0 == HoldAfterUnknown(k) {
      j := n;
    } else {
      j := HoldComesFrom(p, run[..n], k);
    }
  }

  /** Reservation `j` still counts at `i`, or hold `j` does. */
  predicate StillCounts(p: Policy, run: Run, i: nat, j: nat, k: Key)
    requires i < |run|
  {
    j < i && Reserves(p, run, j, k) && (forall m | j < m < i :: run[m].0 != Release(k)) && run[i].1 - run[j].1 < p.window
  }

  predicate StillHolds(run: Run, i: nat, j: nat, k: Key)
    requires i < |run|
  {
    j < i && run[j].0 == HoldAfterUnknown(k) && run[i].1 - run[j].1 < 3_600_000_000
  }

  /** Exactly when a buyer may be answered: when no reservation that was granted within the window stands
      unreleased, and nothing of unknown outcome happened within the hour. */
  lemma ReservedExactly(p: Policy, run: Run, i: nat, k: Key)
    requires p.Sane() && ClockForward(run) && i < |run| && run[i].0 == TryReserve(k)
    ensures Answer(p, run, i) <==> (forall j: nat :: !StillCounts(p, run, i, j, k)) && forall j: nat :: !StillHolds(run, i, j, k)
  {
    var past := IdealAfter(p, run[..i]);
    PruningIsInvisible(p, run, i);
    if Answer(p, run, i) {
      forall j: nat ensures !StillCounts(p, run, i, j, k) && !StillHolds(run, i, j, k) {
        if StillCounts(p, run, i, j, k) { ReservationsAreApart(p, run, j, i, k); }
        if StillHolds(run, i, j, k) { HoldIsKept(p, run, j, i, k); }
      }
    } else if Held(past.holds, k, run[i].1) {
      var j := HoldComesFrom(p, run[..i], k);
      assert StillHolds(run, i, j, k);
    } else {
      var j := EntryComesFrom(p, run[..i], k);
      assert run[..i][..j] == run[..j];
      forall m | j < m < i ensures run[m].0 != Release(k) {
        assert run[..i][m] == run[m];
      }
      assert StillCounts(p, run, i, j, k);
    }
  }
}
