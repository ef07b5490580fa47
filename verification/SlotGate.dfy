/** The daily slots of the five-minute poller, launcher/main.py: an account with post_hours may claim at
    most as many posts on a day as slots have begun, one in a poll, and missed slots are made up for.

    The text of post_hours is modelled by the list of integers it parses to (None: not a list of integers).
    A run is any sequence of polls; which posts each is offered, and which claims and saves work, is arbitrary. */
module SlotGate {
  import opened Wrappers

  type Account = string
  type Day = nat

  // ── post_hours ─────────────────────────────────────────────────────────────

  /** The distinct hours below `n` that occur in `raw`, ascending. */
  function Ascending(raw: seq<int>, n: nat): (r: seq<nat>)
    ensures forall h :: h in r <==> 0 <= h < n && h in raw
    ensures forall i, j | 0 <= i < j < |r| :: r[i] < r[j]
  {
    if n == 0 then []
    else
      var below := Ascending(raw, n - 1);
      assert forall i | 0 <= i < |below| :: below[i] in below;
      below + if n - 1 in raw then [n - 1] else []
  }

  /** _parse_post_hours: an empty result is an error. */
  function ParseHours(raw: Option<seq<int>>, limit: int): seq<nat> {
    if raw.None? || raw.value == [] || exists h | h in raw.value :: h < 0 || h > 23 then []
    else
      var hours := Ascending(raw.value, 24);
      if 0 < limit < |hours| then hours[..limit] else hours
  }

  /** Slots begun by `hour`. */
  function Due(hours: seq<nat>, hour: nat): nat {
    if hours == [] then 0 else Due(hours[..|hours| - 1], hour) + if hours[|hours| - 1] <= hour then 1 else 0
  }

  lemma {:induction false} DueIsBounded(hours: seq<nat>, hour: nat)
    ensures Due(hours, hour) <= |hours|
  {
    if hours != [] {
      DueIsBounded(hours[..|hours| - 1], hour);
    }
  }

  lemma {:induction false} DueGrows(hours: seq<nat>, hour: nat, hour': nat)
    requires hour <= hour'
    ensures Due(hours, hour) <= Due(hours, hour')
  {
    if hours != [] {
      DueGrows(hours[..|hours| - 1], hour, hour');
    }
  }

  /** Never more slots than distinct hours, nor than a positive limit. */
  lemma ParseIsBounded(raw: Option<seq<int>>, limit: int)
    ensures var hours := ParseHours(raw, limit);
            && (limit > 0 ==> |hours| <= limit)
            && (raw.Some? ==> |hours| <= |set h | h in raw.value|)
  {
    var hours := ParseHours(raw, limit);
    if raw.Some? && hours != [] {
      Distinct(hours, set h | h in raw.value);
    }
  }

  predicate Ascends(s: seq<nat>) { forall i, j | 0 <= i < j < |s| :: s[i] < s[j] }

  /** The hours in `raw` before `n`. */
  function Before(raw: seq<int>, n: nat): set<int> { set x | x in raw && 0 <= x < n }

  lemma BeforeGrows(raw: seq<int>, n: nat)
    requires n > 0
    ensures |Before(raw, n)| == |Before(raw, n - 1)| + if n - 1 in raw then 1 else 0
  {
    assert Before(raw, n) == if n - 1 in raw then Before(raw, n - 1) + {n - 1} else Before(raw, n - 1);
  }

  lemma {:induction false} AscendingCounts(raw: seq<int>, n: nat)
    ensures |Ascending(raw, n)| == |Before(raw, n)|
  {
    if n > 0 {
      var below := Ascending(raw, n - 1);
      AscendingCounts(raw, n - 1);
      BeforeGrows(raw, n);
      assert Ascending(raw, n) == below + if n - 1 in raw then [n - 1] else [];
    } else {
      assert Before(raw, 0) == {};
    }
  }

  /** An hour stands where the hours before it end. */
  lemma {:induction false} PlaceOf(raw: seq<int>, h: nat, n: nat)
    requires h < n && h in raw
    ensures |Ascending(raw, h)| < |Ascending(raw, n)| && Ascending(raw, n)[|Ascending(raw, h)|] == h
    decreases n
  {
    if h < n - 1 {
      PlaceOf(raw, h, n - 1);
    }
  }

  /** In an ascending list an element is among the first `k` exactly when its place is. */
  lemma AmongTheFirst(s: seq<nat>, i: nat, k: nat)
    requires Ascends(s) && i < |s| && k <= |s|
    ensures s[i] in s[..k] <==> i < k
  {
    if i < k {
      assert s[..k][i] == s[i];
    }
  }

  predicate HoursOfDay(raw: seq<int>) { forall x | x in raw :: 0 <= x <= 23 }

  /** Exactly which slots an account has: none for text that is no list of hours of the day; otherwise each
      distinct hour, in order, up to the limit if that is positive, the earliest first. */
  lemma ParseIsExact(raw: Option<seq<int>>, limit: int, h: nat)
    ensures Ascends(ParseHours(raw, limit))
    ensures raw.None? || !HoursOfDay(raw.value) ==> ParseHours(raw, limit) == []
    ensures raw.Some? && HoursOfDay(raw.value) ==>
              (h in ParseHours(raw, limit) <==> h in raw.value && (limit <= 0 || |Before(raw.value, h)| < limit))
  {
    if raw.Some? && raw.value != [] && HoursOfDay(raw.value) && h in raw.value {
      HourIsAmong(raw.value, limit, h);
    }
  }

  lemma HourIsAmong(raw: seq<int>, limit: int, h: nat)
    requires h < 24 && h in raw
    ensures var all := Ascending(raw, 24);
            && h in all && |Before(raw, h)| < |all|
            && (0 < limit < |all| ==> (h in all[..limit] <==> |Before(raw, h)| < limit))
  {
    var all := Ascending(raw, 24);
    PlaceOf(raw, h, 24);
    AscendingCounts(raw, h);
    if 0 < limit < |all| {
      AmongTheFirst(all, |Ascending(raw, h)|, limit);
    }
  }

  /** The slots begun are the hours that are not in the future. */
  lemma {:induction false} DueCounts(hours: seq<nat>, hour: nat)
    requires Ascends(hours)
    ensures Due(hours, hour) == |set h | h in hours && h <= hour|
  {
    if hours != [] {
      var front, last := hours[..|hours| - 1], hours[|hours| - 1];
      DueCounts(front, hour);
      var now := set h | h in front && h <= hour;
      assert last !in front;
      assert (set h | h in hours && h <= hour) == if last <= hour then now + {last} else now;
    }
  }

  lemma {:induction false} Distinct(s: seq<nat>, into: set<int>)
    requires (forall i, j | 0 <= i < j < |s| :: s[i] < s[j]) && forall x | x in s :: x in into
    ensures |s| <= |into|
  {
    if s != [] {
      var last := s[|s| - 1];
      Distinct(s[..|s| - 1], into - {last});
    }
  }

  // ── one poll ───────────────────────────────────────────────────────────────

  /** The slot state: the day of the last claim, and how many slots it used up. */
  datatype Slot = Slot(day: Day, n: nat)
  type Slots = map<Account, Slot>

  function Used(m: Slots, a: Account, day: Day): nat {
    if a in m && m[a].day == day then m[a].n else 0
  }

  /** A ready post, with what will come of it: whether every other check lets it through, whether the
      claim succeeds, and whether the state file is saved afterwards. */
  datatype Post = Post(account: Account, passes: bool, claims: bool, saves: bool)

  /** The parsed post_hours of the accounts that have any (an invalid value parses to no hours). */
  type Config = map<Account, seq<nat>>

  datatype State = State(
    file: Slots,
    memory: Slots,
    seen: set<Account>,                   // slot_used
    claimed: multiset<(Account, Day)>,    // claims made
    lost: multiset<(Account, Day)>)       // of those, the ones whose save failed

  predicate Allowed(config: Config, m: Slots, a: Account, day: Day, hour: nat) {
    a in config ==> Used(m, a, day) < Due(config[a], hour)
  }

  /** One turn of the loop over the ready posts. */
  function Offer(config: Config, day: Day, hour: nat, s: State, p: Post): State {
    if p.account in s.seen || !Allowed(config, s.memory, p.account, day, hour) then s
    else
      var s' := s.(seen := s.seen + {p.account});
      if !p.passes || !p.claims || p.account !in config then s'
      else
        var memory := s.memory[p.account := Slot(day, Used(s.memory, p.account, day) + 1)];
        s'.(memory := memory, claimed := s.claimed + multiset{(p.account, day)},
            file := if p.saves then memory else s.file,
            lost := if p.saves then s.lost else s.lost + multiset{(p.account, day)})
  }

  function Offers(config: Config, day: Day, hour: nat, s: State, posts: seq<Post>): State {
    if posts == [] then s
    else Offer(config, day, hour, Offers(config, day, hour, s, posts[..|posts| - 1]), posts[|posts| - 1])
  }

  datatype World = World(file: Slots, claimed: multiset<(Account, Day)>, lost: multiset<(Account, Day)>)
  datatype Poll = Poll(day: Day, hour: nat, posts: seq<Post>, loads: bool)

  function Opened(w: World): State { State(w.file, w.file, {}, w.claimed, w.lost) }

  /** A poll; when the state file cannot be read, no account with post_hours gets past the gate. */
  function Polled(config: Config, w: World, p: Poll): World {
    if !p.loads then w
    else
      var s := Offers(config, p.day, p.hour, Opened(w), p.posts);
      World(s.file, s.claimed, s.lost)
  }

  class Poller {
    var file: Slots
    ghost var claimed: multiset<(Account, Day)>
    ghost var lost: multiset<(Account, Day)>

    ghost function Now(): World reads this { World(file, claimed, lost) }

    method RunPoll(config: Config, p: Poll)
      modifies this
      ensures Now() == Polled(config, old(Now()), p)
    {
      if !p.loads {
        return;
      }
      var _, _ := OfferAll(config, p.day, p.hour, p.posts, file, {});
    }

    /** The loop over the ready posts. */
    method OfferAll(config: Config, day: Day, hour: nat, posts: seq<Post>, memory0: Slots, seen0: set<Account>)
      returns (memory: Slots, seen: set<Account>)
      modifies this
      ensures Loop(memory, seen) == Offers(config, day, hour, old(Loop(memory0, seen0)), posts)
    {
      memory, seen := memory0, seen0;
      ghost var begun := Loop(memory0, seen0);
      var i := 0;
      while i < |posts|
        invariant 0 <= i <= |posts| && Loop(memory, seen) == Offers(config, day, hour, begun, posts[..i])
      {
        OffersNext(config, day, hour, begun, posts, i);
        memory, seen := OfferOne(config, day, hour, posts[i], memory, seen);
        i := i + 1;
      }
      assert posts[..i] == posts;
    }

    ghost function Loop(memory: Slots, seen: set<Account>): State reads this { State(file, memory, seen, claimed, lost) }

    method OfferOne(config: Config, day: Day, hour: nat, p: Post, memory: Slots, seen: set<Account>)
      returns (memory': Slots, seen': set<Account>)
      modifies this
      ensures Loop(memory', seen') == Offer(config, day, hour, old(Loop(memory, seen)), p)
    {
      memory', seen' := memory, seen;
      var a := p.account;
      if a in seen || (a in config && Used(memory, a, day) >= Due(config[a], hour)) {
        return;
      }
      seen' := seen + {a};
      if !p.passes || !p.claims || a !in config {
        return;
      }
      memory' := memory[a := Slot(day, Used(memory, a, day) + 1)];
      claimed := claimed + multiset{(a, day)};
      if p.saves {
        file := memory';
      } else {
        lost := lost + multiset{(a, day)};
      }
    }
  }

  lemma OffersNext(config: Config, day: Day, hour: nat, s: State, posts: seq<Post>, i: nat)
    requires i < |posts|
    ensures Offers(config, day, hour, s, posts[..i + 1]) == Offer(config, day, hour, Offers(config, day, hour, s, posts[..i]), posts[i])
  {
    assert posts[..i + 1][..i] == posts[..i];
  }

  // ── the daily bound ────────────────────────────────────────────────────────

  /** At (day, hour): the file counts every claim of the day but the lost ones, and counts no more than
      the slots begun; the future is blank. */
  predicate Counted(config: Config, file: Slots, claimed: multiset<(Account, Day)>, lost: multiset<(Account, Day)>, a: Account, day: Day, hour: nat)
    requires a in config
  {
    && claimed[(a, day)] <= Used(file, a, day) + lost[(a, day)]
    && Used(file, a, day) <= Due(config[a], hour)
    && (a in file ==> file[a].day <= day)
  }

  predicate StateOk(config: Config, s: State, a: Account, day: Day, hour: nat)
    requires a in config
  {
    && Counted(config, s.file, s.claimed, s.lost, a, day, hour)
    && Used(s.file, a, day) <= Used(s.memory, a, day) <= Due(config[a], hour)
    && (a in s.memory ==> s.memory[a].day <= day)
  }

  lemma {:induction false} OffersKeep(config: Config, day: Day, hour: nat, s: State, posts: seq<Post>, a: Account)
    requires a in config && StateOk(config, s, a, day, hour)
    ensures StateOk(config, Offers(config, day, hour, s, posts), a, day, hour)
    ensures forall d | d != day :: Offers(config, day, hour, s, posts).claimed[(a, d)] == s.claimed[(a, d)]
  {
    if posts != [] {
      OffersKeep(config, day, hour, s, posts[..|posts| - 1], a);
    }
  }

  /** Polls follow one another in time. */
  predicate InOrder(polls: seq<Poll>) {
    forall i, j | 0 <= i < j < |polls| :: polls[i].day < polls[j].day || (polls[i].day == polls[j].day && polls[i].hour <= polls[j].hour)
  }

  function Runs(config: Config, polls: seq<Poll>): World {
    if polls == [] then World(map[], multiset{}, multiset{})
    else Polled(config, Runs(config, polls[..|polls| - 1]), polls[|polls| - 1])
  }

  predicate NotBefore(p: Poll, day: Day, hour: nat) { p.day < day || (p.day == day && p.hour <= hour) }

  lemma {:induction false} CountedAlways(config: Config, polls: seq<Poll>, a: Account, day: Day, hour: nat)
    requires a in config && InOrder(polls) && forall i | 0 <= i < |polls| :: NotBefore(polls[i], day, hour)
    ensures var w := Runs(config, polls); Counted(config, w.file, w.claimed, w.lost, a, day, hour)
    ensures forall d | d > day :: Runs(config, polls).claimed[(a, d)] == 0
  {
    if polls != [] {
      var front, p := polls[..|polls| - 1], polls[|polls| - 1];
      CountedAlways(config, front, a, p.day, p.hour);
      var w := Runs(config, front);
      if p.loads {
        OffersKeep(config, p.day, p.hour, Opened(w), p.posts, a);
      }
      var w' := Runs(config, polls);
      assert Counted(config, w'.file, w'.claimed, w'.lost, a, p.day, p.hour);
      if p.day == day {
        DueGrows(config[a], p.hour, hour);
      }
    }
  }

  /** At every time of day, the claims of an account number at most the slots begun, plus one for every
      save of the state file that failed; so with every save made, at most min(distinct hours, limit). */
  lemma DailyBound(config: Config, polls: seq<Poll>, a: Account, raw: Option<seq<int>>, limit: int, day: Day, hour: nat)
    requires a in config && config[a] == ParseHours(raw, limit)
    requires InOrder(polls) && forall i | 0 <= i < |polls| :: NotBefore(polls[i], day, hour)
    ensures var w := Runs(config, polls);
            && w.claimed[(a, day)] <= Due(config[a], hour) + w.lost[(a, day)]
            && (w.lost[(a, day)] == 0 && limit > 0 ==> w.claimed[(a, day)] <= limit)
            && (w.lost[(a, day)] == 0 && raw.Some? ==> w.claimed[(a, day)] <= |set h | h in raw.value|)
  {
    CountedAlways(config, polls, a, day, hour);
    DueIsBounded(config[a], hour);
    ParseIsBounded(raw, limit);
  }

  /** One claim a poll and account at most. */
  lemma {:induction false} OneAPoll(config: Config, day: Day, hour: nat, s: State, posts: seq<Post>, a: Account)
    ensures var s' := Offers(config, day, hour, s, posts);
            && s.seen <= s'.seen
            && s'.claimed[(a, day)] <= s.claimed[(a, day)] + (if a in s'.seen && a !in s.seen then 1 else 0)
  {
    if posts != [] {
      OneAPoll(config, day, hour, s, posts[..|posts| - 1], a);
    }
  }

  // ── missed slots ───────────────────────────────────────────────────────────

  /** The first post of `a` in the list, where there is one, would be published. */
  predicate Serves(p: Poll, a: Account) {
    && p.loads
    && exists k :: 0 <= k < |p.posts| && p.posts[k] == Post(a, true, true, true) && forall i | 0 <= i < k :: p.posts[i].account != a
  }

  /** What the posts of others do to the count of `a`: nothing. */
  lemma {:induction false} OthersDoNothing(config: Config, day: Day, hour: nat, s: State, posts: seq<Post>, a: Account)
    requires forall i | 0 <= i < |posts| :: posts[i].account != a
    ensures var s' := Offers(config, day, hour, s, posts);
            && (a in s'.seen <==> a in s.seen) && Used(s'.memory, a, day) == Used(s.memory, a, day)
            && (Used(s.file, a, day) == Used(s.memory, a, day) ==> Used(s'.file, a, day) == Used(s.memory, a, day))
            && s'.claimed[(a, day)] == s.claimed[(a, day)] && s'.lost[(a, day)] == s.lost[(a, day)]
  {
    if posts != [] {
      OthersDoNothing(config, day, hour, s, posts[..|posts| - 1], a);
    }
  }

  /** Once `a` had its turn, or no slot is left, the accounts stand. */
  lemma {:induction false} ThenItStands(config: Config, day: Day, hour: nat, s: State, posts: seq<Post>, a: Account)
    requires a in config && (a in s.seen || Used(s.memory, a, day) >= Due(config[a], hour))
    requires Used(s.file, a, day) == Used(s.memory, a, day) || a in s.seen
    ensures var s' := Offers(config, day, hour, s, posts);
            && (a in s'.seen <==> a in s.seen) && Used(s'.memory, a, day) == Used(s.memory, a, day)
            && (Used(s'.file, a, day) == Used(s.file, a, day) || Used(s'.file, a, day) == Used(s.memory, a, day))
            && s'.claimed[(a, day)] == s.claimed[(a, day)] && s'.lost[(a, day)] == s.lost[(a, day)]
  {
    if posts != [] {
      ThenItStands(config, day, hour, s, posts[..|posts| - 1], a);
    }
  }

  lemma {:induction false} OffersJoin(config: Config, day: Day, hour: nat, s: State, a: seq<Post>, b: seq<Post>)
    ensures Offers(config, day, hour, s, a + b) == Offers(config, day, hour, Offers(config, day, hour, s, a), b)
  {
    if b == [] {
      assert a + b == a;
    } else {
      assert (a + b)[..|a + b| - 1] == a + b[..|b| - 1];
      OffersJoin(config, day, hour, s, a, b[..|b| - 1]);
    }
  }

  /** Where the first post of an account stands. */
  predicate FirstOf(p: Poll, a: Account, k: nat) {
    k < |p.posts| && p.posts[k].account == a && forall i | 0 <= i < k :: p.posts[i].account != a
  }

  lemma FirstPost(config: Config, p: Poll, s: State, a: Account, k: nat)
    requires a in config && a !in s.seen && Used(s.file, a, p.day) == Used(s.memory, a, p.day) && FirstOf(p, a, k)
    ensures var s', n, q := Offers(config, p.day, p.hour, s, p.posts[..k + 1]), Used(s.file, a, p.day), p.posts[k];
            var taken := n < Due(config[a], p.hour) && q.passes && q.claims;
            && (a in s'.seen <==> n < Due(config[a], p.hour))
            && Used(s'.memory, a, p.day) == (if taken then n + 1 else n)
            && Used(s'.file, a, p.day) == (if taken && q.saves then n + 1 else n)
            && s'.claimed[(a, p.day)] == s.claimed[(a, p.day)] + (if taken then 1 else 0)
            && s'.lost[(a, p.day)] == s.lost[(a, p.day)] + (if taken && !q.saves then 1 else 0)
  {
    OthersDoNothing(config, p.day, p.hour, s, p.posts[..k], a);
    assert p.posts[..k + 1][..k] == p.posts[..k];
  }

  /** The first post of an account decides for all of them in a poll: with a slot open, and if it passes
      every other check, it is claimed, and its slot is spent whether or not the spending could be saved;
      and whatever comes of it, no later post of the account has a turn. */
  lemma FirstPostDecides(config: Config, w: World, p: Poll, a: Account, k: nat)
    requires a in config && p.loads && FirstOf(p, a, k)
    ensures var w', n, q := Polled(config, w, p), Used(w.file, a, p.day), p.posts[k];
            var taken := n < Due(config[a], p.hour) && q.passes && q.claims;
            && w'.claimed[(a, p.day)] == w.claimed[(a, p.day)] + (if taken then 1 else 0)
            && w'.lost[(a, p.day)] == w.lost[(a, p.day)] + (if taken && !q.saves then 1 else 0)
            && (Used(w'.file, a, p.day) == n || (taken && Used(w'.file, a, p.day) == n + 1))
            && (taken && q.saves ==> Used(w'.file, a, p.day) == n + 1)
  {
    var s, head, tail := Opened(w), p.posts[..k + 1], p.posts[k + 1..];
    assert head + tail == p.posts;
    var s' := Offers(config, p.day, p.hour, s, head);
    FirstPost(config, p, s, a, k);
    ThenItStands(config, p.day, p.hour, s', tail, a);
    OffersJoin(config, p.day, p.hour, s, head, tail);
    assert Offers(config, p.day, p.hour, s, p.posts) == Offers(config, p.day, p.hour, s', tail);
  }

  /** An account without post_hours has no slots to run out of: its first post in a poll always has its
      turn, and its posts touch no account's count. */
  lemma NoHoursNoGate(config: Config, p: Poll, s: State, a: Account, k: nat)
    requires a !in config && a !in s.seen && FirstOf(p, a, k)
    ensures var s' := Offers(config, p.day, p.hour, s, p.posts[..k]);
            var after := Offer(config, p.day, p.hour, s', p.posts[k]);
            a !in s'.seen && after == s'.(seen := s'.seen + {a})
  {
    StillUnseen(config, p.day, p.hour, s, p.posts[..k], a);
  }

  lemma {:induction false} StillUnseen(config: Config, day: Day, hour: nat, s: State, posts: seq<Post>, a: Account)
    requires a !in s.seen && forall i | 0 <= i < |posts| :: posts[i].account != a
    ensures a !in Offers(config, day, hour, s, posts).seen
  {
    if posts != [] {
      StillUnseen(config, day, hour, s, posts[..|posts| - 1], a);
    }
  }

  /** An account none of whose posts comes up, or a poll that cannot read its state, changes nothing. */
  lemma NothingDecides(config: Config, w: World, p: Poll, a: Account)
    requires a in config && (!p.loads || forall i | 0 <= i < |p.posts| :: p.posts[i].account != a)
    ensures var w' := Polled(config, w, p);
            w'.claimed[(a, p.day)] == w.claimed[(a, p.day)] && w'.lost[(a, p.day)] == w.lost[(a, p.day)]
            && Used(w'.file, a, p.day) == Used(w.file, a, p.day)
  {
    if p.loads {
      OthersDoNothing(config, p.day, p.hour, Opened(w), p.posts, a);
    }
  }

  lemma ServedPoll(config: Config, w: World, p: Poll, a: Account)
    requires a in config && Serves(p, a)
    ensures var n := Used(w.file, a, p.day);
            Used(Polled(config, w, p).file, a, p.day) == if n < Due(config[a], p.hour) then n + 1 else n
  {
    var k: nat :| k < |p.posts| && p.posts[k] == Post(a, true, true, true) && forall i | 0 <= i < k :: p.posts[i].account != a;
    FirstPostDecides(config, w, p, a, k);
  }

  function Min(a: nat, b: nat): nat { if a < b then a else b }

  function PollAll(config: Config, w: World, polls: seq<Poll>): World {
    if polls == [] then w else Polled(config, PollAll(config, w, polls[..|polls| - 1]), polls[|polls| - 1])
  }

  /** Missed slots are made up for: k polls of one hour that each come to a post of the account raise its
      count to min(n + k, slots begun), no matter what happens to other accounts. */
  lemma {:induction false} CatchUp(config: Config, w: World, polls: seq<Poll>, a: Account, day: Day, hour: nat)
    requires a in config && Used(w.file, a, day) <= Due(config[a], hour)
    requires forall i | 0 <= i < |polls| :: polls[i].day == day && polls[i].hour == hour && Serves(polls[i], a)
    ensures Used(PollAll(config, w, polls).file, a, day) == Min(Used(w.file, a, day) + |polls|, Due(config[a], hour))
  {
    if polls != [] {
      var front := polls[..|polls| - 1];
      CatchUp(config, w, front, a, day, hour);
      ServedPoll(config, PollAll(config, w, front), polls[|polls| - 1], a);
    }
  }
}
