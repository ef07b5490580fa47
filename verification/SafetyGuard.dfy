/** The brakes on Private Replies: cooldown per user, daily budget and circuit breaker
    (modules/comment/comment_safety_guard.py), consulted and fed by _try_private_reply
    (modules/comment/comment_auto_reply.py) under one lock.

    Times are microseconds of one clock that does not go back; a day is a UTC day.  Consulting the
    guard, sending and feeding the answer back are one step here, as they are under that lock. */
module SafetyGuard {
  import opened Wrappers

  type User = string

  const SECOND := 1_000_000
  const DAY := 86400 * SECOND

  /** The four limits are read from the environment, and may be anything, zero and below included. */
  datatype Limits = Limits(cooldown: int, dailyBudget: int, threshold: int, circuit: int)

  const DEFAULTS := Limits(24 * 3600 * SECOND, 30, 3, 30 * 60 * SECOND)

  function Today(now: nat): nat { now / DAY }

  /** The two state files and the two globals.  A budget file holds a single day. */
  datatype State = State(cooldown: map<User, nat>, budget: Option<(nat, nat)>, failures: nat, openUntil: int)

  function Fresh(): State { State(map[], None, 0, 0) }

  predicate InCooldown(lim: Limits, s: State, user: User, now: nat) {
    user != "" && user in s.cooldown && now - s.cooldown[user] < lim.cooldown
  }
  function Spent(s: State, day: nat): nat { if s.budget.Some? && s.budget.value.0 == day then s.budget.value.1 else 0 }
  predicate CircuitOpen(s: State, now: nat) { now < s.openUntil }

  datatype Outcome = Succeeded | Declined | Threw

  /** One call: when it started, for whom, whether the post is a campaign post of a supported account,
      whether the claim still stands, and, if a request goes out, how and when that ends. */
  datatype Call = Call(start: nat, user: User, eligible: bool, owned: bool, outcome: Outcome, end: nat)

  datatype Event = Try(call: Call) | Restart

  predicate Passes(lim: Limits, s: State, c: Call) {
    && c.eligible && !CircuitOpen(s, c.start) && !InCooldown(lim, s, c.user, c.start)
    && Spent(s, Today(c.start)) < lim.dailyBudget
  }

  predicate Sends(lim: Limits, s: State, ev: Event) { ev.Try? && Passes(lim, s, ev.call) && ev.call.owned }

  function AfterSend(lim: Limits, s: State, c: Call): State {
    match c.outcome
    case Succeeded => s.(cooldown := if c.user == "" then s.cooldown else s.cooldown[c.user := c.end], failures := 0)
    case Declined =>
      s.(failures := s.failures + 1, openUntil := if s.failures + 1 >= lim.threshold then c.end + lim.circuit else s.openUntil)
    case Threw => s
  }

  function Step(lim: Limits, s: State, ev: Event): State {
    match ev
    case Restart => s.(failures := 0, openUntil := 0)
    case Try(c) =>
      if !Passes(lim, s, c) then s
      else
        var paid := s.(budget := Some((Today(c.start), Spent(s, Today(c.start)) + 1)));
        if c.owned then AfterSend(lim, paid, c) else paid
  }

  class Guard {
    const lim: Limits
    var cooldown: map<User, nat>
    var budget: Option<(nat, nat)>
    var failures: nat
    var openUntil: int

    function Value(): State reads this { State(cooldown, budget, failures, openUntil) }

    constructor (lim: Limits)
      ensures Value() == Fresh() && this.lim == lim
    {
      this.lim := lim;
      cooldown, budget, failures, openUntil := map[], None, 0, 0;
    }

    method ConsumeDailyBudget(now: nat) returns (ok: bool)
      modifies this`budget
      ensures ok == (Spent(old(Value()), Today(now)) < lim.dailyBudget)
      ensures budget == if ok then Some((Today(now), Spent(old(Value()), Today(now)) + 1)) else old(budget)
    {
      var count := if budget.Some? && budget.value.0 == Today(now) then budget.value.1 else 0;
      if count >= lim.dailyBudget {
        return false;
      }
      budget := Some((Today(now), count + 1));
      return true;
    }

    method RecordFailure(now: nat)
      modifies this`failures, this`openUntil
      ensures failures == old(failures) + 1
      ensures openUntil == if failures >= lim.threshold then now + lim.circuit else old(openUntil)
    {
      failures := failures + 1;
      if failures >= lim.threshold {
        openUntil := now + lim.circuit;
      }
    }

    /** _try_private_reply, with the outside world's part of it in `c`. */
    method TryPrivateReply(c: Call) returns (sent: bool)
      modifies this
      ensures Value() == Step(lim, old(Value()), Try(c)) && sent == Sends(lim, old(Value()), Try(c))
    {
      if !c.eligible || CircuitOpen(Value(), c.start) || InCooldown(lim, Value(), c.user, c.start) {
        return false;
      }
      var within := ConsumeDailyBudget(c.start);
      if !within || !c.owned {
        return false;
      }
      match c.outcome {
        case Succeeded =>
          if c.user != "" {
            cooldown := cooldown[c.user := c.end];
          }
          failures := 0;
        case Declined => RecordFailure(c.end);
        case Threw =>
      }
      return true;
    }
  }

  // ── runs ───────────────────────────────────────────────────────────────────

  type Run = seq<Event>

  function After(lim: Limits, run: Run): State {
    if run == [] then Fresh() else Step(lim, After(lim, run[..|run| - 1]), run[|run| - 1])
  }

  /** The lock: a call starts when the one before it has ended. */
  predicate Serial(run: Run) {
    && (forall i | 0 <= i < |run| && run[i].Try? :: run[i].call.start <= run[i].call.end)
    && (forall i, j | 0 <= i < j < |run| && run[i].Try? && run[j].Try? :: run[i].call.end <= run[j].call.start)
  }

  predicate SentAt(lim: Limits, run: Run, i: nat) { i < |run| && Sends(lim, After(lim, run[..i]), run[i]) }
  predicate RepliedAt(lim: Limits, run: Run, i: nat) { SentAt(lim, run, i) && run[i].call.outcome.Succeeded? }
  predicate DeclinedAt(lim: Limits, run: Run, i: nat) { SentAt(lim, run, i) && run[i].call.outcome.Declined? }

  function Cap(lim: Limits): nat { if lim.dailyBudget < 0 then 0 else lim.dailyBudget }

  /** Attempts paid for on a day. */
  function Attempts(lim: Limits, run: Run, day: nat): nat {
    if run == [] then 0
    else
      var last := run[|run| - 1];
      Attempts(lim, run[..|run| - 1], day)
      + if last.Try? && Passes(lim, After(lim, run[..|run| - 1]), last.call) && Today(last.call.start) == day then 1 else 0
  }

  predicate NotAfter(run: Run, now: nat) { forall i | 0 <= i < |run| && run[i].Try? :: run[i].call.end <= now }

  /** A day is the 86400 seconds of a UTC date, counted from the epoch. */
  lemma DaysAre(now: nat, day: nat)
    ensures Today(now) == day <==> day * 86_400_000_000 <= now < (day + 1) * 86_400_000_000
  {
  }

  lemma DaysGrow(a: nat, b: nat)
    requires a <= b
    ensures Today(a) <= Today(b)
  {
  }

  /** The budget file counts the attempts of its day; no attempt is of a later day. */
  lemma {:induction false} BudgetCounts(lim: Limits, run: Run, now: nat, day: nat)
    requires Serial(run) && NotAfter(run, now) && day >= Today(now)
    ensures Attempts(lim, run, day) == Spent(After(lim, run), day) <= Cap(lim)
    ensures After(lim, run).budget.Some? ==> After(lim, run).budget.value.0 <= Today(now)
  {
    if run != [] {
      var front, last := run[..|run| - 1], run[|run| - 1];
      if last.Try? {
        DaysGrow(last.call.start, last.call.end);
        DaysGrow(last.call.end, now);
        BudgetCounts(lim, front, last.call.start, day);
      } else {
        BudgetCounts(lim, front, now, day);
      }
    }
  }

  /** No more than the budget of attempts on any UTC day, over any run. */
  lemma {:induction false} DailyBudgetHolds(lim: Limits, run: Run, day: nat)
    requires Serial(run)
    ensures Attempts(lim, run, day) <= Cap(lim)
  {
    if run != [] {
      var front, last := run[..|run| - 1], run[|run| - 1];
      if last.Try? && Today(last.call.start) == day {
        BudgetCounts(lim, front, last.call.start, day);
      } else {
        DailyBudgetHolds(lim, front, day);
      }
    }
  }

  lemma {:induction false} CooldownStands(lim: Limits, run: Run, i: nat, j: nat)
    requires Serial(run) && RepliedAt(lim, run, i) && run[i].call.user != "" && i < j <= |run|
    ensures var s, u := After(lim, run[..j]), run[i].call.user; u in s.cooldown && s.cooldown[u] >= run[i].call.end
  {
    assert run[..j][..j - 1] == run[..j - 1];
    if j > i + 1 {
      CooldownStands(lim, run, i, j - 1);
    }
  }

  /** Two successful replies to one user are at least the cooldown apart; restarts do not matter. */
  lemma RepliesAreApart(lim: Limits, run: Run, i: nat, j: nat)
    requires Serial(run) && i < j && RepliedAt(lim, run, i) && SentAt(lim, run, j) && run[i].call.user == run[j].call.user != ""
    ensures run[j].call.start >= run[i].call.end + lim.cooldown
  {
    CooldownStands(lim, run, i, j);
  }

  /** Failures since the last success or restart before position `j`. */
  function Streak(lim: Limits, run: Run, j: nat): nat
    requires j <= |run|
  {
    if j == 0 then 0
    else if run[j - 1].Restart? || RepliedAt(lim, run, j - 1) then 0
    else Streak(lim, run, j - 1) + if DeclinedAt(lim, run, j - 1) then 1 else 0
  }

  lemma {:induction false} FailuresAreTheStreak(lim: Limits, run: Run, j: nat)
    requires j <= |run|
    ensures After(lim, run[..j]).failures == Streak(lim, run, j)
  {
    if j > 0 {
      assert run[..j][..j - 1] == run[..j - 1];
      FailuresAreTheStreak(lim, run, j - 1);
    }
  }

  predicate NoRestart(run: Run, i: nat, j: nat) { forall m | i < m < j && m < |run| :: run[m].Try? }

  lemma {:induction false} CircuitStays(lim: Limits, run: Run, i: nat, j: nat)
    requires Serial(run) && DeclinedAt(lim, run, i) && Streak(lim, run, i + 1) >= lim.threshold && i < j <= |run| && NoRestart(run, i, j)
    ensures After(lim, run[..j]).openUntil >= run[i].call.end + lim.circuit
  {
    assert run[..j][..j - 1] == run[..j - 1];
    if j == i + 1 {
      FailuresAreTheStreak(lim, run, i);
    } else {
      CircuitStays(lim, run, i, j - 1);
    }
  }

  /** Once failures have reached the threshold, each further one, with no success or restart since, shuts
      replies out for the whole cooldown: the first failure after the circuit closes opens it again. */
  lemma CircuitHolds(lim: Limits, run: Run, i: nat, j: nat)
    requires Serial(run) && DeclinedAt(lim, run, i) && Streak(lim, run, i + 1) >= lim.threshold
    requires i < j && SentAt(lim, run, j) && NoRestart(run, i, j)
    ensures run[j].call.start >= run[i].call.end + lim.circuit
    ensures DeclinedAt(lim, run, j) && (forall m | i < m < j :: !RepliedAt(lim, run, m)) ==> Streak(lim, run, j + 1) >= lim.threshold
  {
    CircuitStays(lim, run, i, j);
    if forall m | i < m < j :: !RepliedAt(lim, run, m) {
      StreakGrows(lim, run, i + 1, j);
    }
  }

  lemma {:induction false} StreakGrows(lim: Limits, run: Run, a: nat, b: nat)
    requires a <= b <= |run| && forall m | a <= m < b :: run[m].Try? && !RepliedAt(lim, run, m)
    ensures Streak(lim, run, b) >= Streak(lim, run, a)
  {
    if a < b {
      StreakGrows(lim, run, a, b - 1);
    }
  }

  // ── exactly when a reply goes out ──────────────────────────────────────────

  /** The circuit was opened by failure `j`, and is open still. */
  predicate ShutOutBy(lim: Limits, run: Run, i: nat, j: nat)
    requires i < |run| && run[i].Try?
  {
    j < i && DeclinedAt(lim, run, j) && Streak(lim, run, j + 1) >= lim.threshold && NoRestart(run, j, i)
    && run[i].call.start < run[j].call.end + lim.circuit
  }

  /** The same user was answered by `j` within the cooldown. */
  predicate CooledBy(lim: Limits, run: Run, i: nat, j: nat)
    requires i < |run| && run[i].Try?
  {
    j < i && RepliedAt(lim, run, j) && run[j].call.user == run[i].call.user != "" && run[i].call.start - run[j].call.end < lim.cooldown
  }

  /** A cooldown entry is that of a reply. */
  lemma {:induction false} CooldownComesFrom(lim: Limits, run: Run, n: nat, u: User) returns (j: nat)
    requires n <= |run| && u in After(lim, run[..n]).cooldown
    ensures j < n && RepliedAt(lim, run, j) && run[j].call.user == u != "" && After(lim, run[..n]).cooldown[u] == run[j].call.end
  {
    assert run[..n][..n - 1] == run[..n - 1];
    if RepliedAt(lim, run, n - 1) && run[n - 1].call.user == u != "" {
      j := n - 1;
    } else {
      j := CooldownComesFrom(lim, run, n - 1, u);
    }
  }

  /** An open circuit is the work of a failure since the last restart. */
  lemma {:induction false} CircuitComesFrom(lim: Limits, run: Run, n: nat) returns (j: nat)
    requires n <= |run| && After(lim, run[..n]).openUntil != 0
    ensures j < n && DeclinedAt(lim, run, j) && Streak(lim, run, j + 1) >= lim.threshold && NoRestart(run, j, n)
    ensures After(lim, run[..n]).openUntil == run[j].call.end + lim.circuit
  {
    assert run[..n][..n - 1] == run[..n - 1];
    FailuresAreTheStreak(lim, run, n - 1);
    if DeclinedAt(lim, run, n - 1) && Streak(lim, run, n) >= lim.threshold {
      j := n - 1;
    } else {
      j := CircuitComesFrom(lim, run, n - 1);
    }
  }

  predicate PaidAt(lim: Limits, run: Run, i: nat) { i < |run| && run[i].Try? && Passes(lim, After(lim, run[..i]), run[i].call) }

  lemma BudgetIsAttempts(lim: Limits, run: Run, i: nat)
    requires Serial(run) && i < |run| && run[i].Try?
    ensures Spent(After(lim, run[..i]), Today(run[i].call.start)) == Attempts(lim, run[..i], Today(run[i].call.start))
  {
    var front := run[..i];
    assert forall m | 0 <= m < |front| :: front[m] == run[m];
    BudgetCounts(lim, front, run[i].call.start, Today(run[i].call.start));
  }

  lemma CircuitMeans(lim: Limits, run: Run, i: nat)
    requires Serial(run) && i < |run| && run[i].Try?
    ensures CircuitOpen(After(lim, run[..i]), run[i].call.start) <==> exists j: nat :: ShutOutBy(lim, run, i, j)
  {
    if CircuitOpen(After(lim, run[..i]), run[i].call.start) {
      var j := CircuitComesFrom(lim, run, i);
      assert ShutOutBy(lim, run, i, j);
    }
    if j: nat :| ShutOutBy(lim, run, i, j) {
      CircuitStays(lim, run, j, i);
    }
  }

  lemma CooldownMeans(lim: Limits, run: Run, i: nat)
    requires Serial(run) && i < |run| && run[i].Try?
    ensures InCooldown(lim, After(lim, run[..i]), run[i].call.user, run[i].call.start) <==> exists j: nat :: CooledBy(lim, run, i, j)
  {
    if InCooldown(lim, After(lim, run[..i]), run[i].call.user, run[i].call.start) {
      var j := CooldownComesFrom(lim, run, i, run[i].call.user);
      assert CooledBy(lim, run, i, j);
    }
    if j: nat :| CooledBy(lim, run, i, j) {
      CooldownStands(lim, run, j, i);
    }
  }

  /** Exactly when an attempt is paid for and a reply goes out, over the whole history: the comment is
      eligible, no failure holds the circuit open, the user was not answered within the cooldown, and the
      attempts of the day are fewer than the budget; and, for the reply, the claim still stands. */
  lemma SentExactly(lim: Limits, run: Run, i: nat)
    requires Serial(run) && i < |run| && run[i].Try?
    ensures PaidAt(lim, run, i) <==>
              && run[i].call.eligible
              && (forall j: nat :: !ShutOutBy(lim, run, i, j)) && (forall j: nat :: !CooledBy(lim, run, i, j))
              && Attempts(lim, run[..i], Today(run[i].call.start)) < lim.dailyBudget
    ensures SentAt(lim, run, i) <==> PaidAt(lim, run, i) && run[i].call.owned
  {
    CircuitMeans(lim, run, i);
    CooldownMeans(lim, run, i);
    BudgetIsAttempts(lim, run, i);
  }
}
