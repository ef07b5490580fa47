/** The onboarding planner, tools/onboard_meta_accounts.py: which page or Instagram account belongs to
    which registry row, what may be written there, and what applying a plan leaves behind.

    An empty string stands for a missing value.  Each loop of the source is a method,
    proved against a function of its inputs; what a plan promises is then proved about these functions. */
module Onboarding {
  import opened Wrappers

  datatype Field = AccountCode | IgUserId | FbPageId | CredentialKey | ApiProvider

  datatype Rec = Rec(
    id: string, identity: string, handle: string,
    accountCode: string, igUserId: string, fbPageId: string, credentialKey: string, apiProvider: string)
  {
    function Get(f: Field): string {
      match f
      case AccountCode => accountCode
      case IgUserId => igUserId
      case FbPageId => fbPageId
      case CredentialKey => credentialKey
      case ApiProvider => apiProvider
    }

    function Patch(writes: map<Field, string>): Rec {
      this.(accountCode := if AccountCode in writes then writes[AccountCode] else accountCode,
            igUserId := if IgUserId in writes then writes[IgUserId] else igUserId,
            fbPageId := if FbPageId in writes then writes[FbPageId] else fbPageId,
            credentialKey := if CredentialKey in writes then writes[CredentialKey] else credentialKey,
            apiProvider := if ApiProvider in writes then writes[ApiProvider] else apiProvider)
    }
  }

  datatype Listing = Listing(identity: string, platform: string, username: string)
  datatype Page = Page(pageId: string, pageName: string, isAssigned: bool, igId: string, igUsername: string)
  datatype Context = Context(reg: seq<Rec>, listings: seq<Listing>, env: seq<(string, string)>)

  /** Who holds a value: a row with an identity, or one without. */
  datatype Holder = Known(identity: string) | Nameless(rowId: string)

  datatype Status = Ready | NoChange | Skip
  datatype Reason =
    | Protected | IdConflict | NameConflict | MatchConflict | MatchCount(n: nat) | NoRecord | RecordCount(n: nat)
    | NoInstagram | AssignOnly | Conflict | Fine | Duplicate(column: nat)

  datatype Item = Item(
    page: Page, recordId: string, status: Status, reason: Reason, identity: string,
    airtable: map<Field, string>, env: seq<string>, key: string)
  {
    predicate Live() { status.Ready? || status.NoChange? }
    function Skipped(why: Reason): Item { this.(status := Skip, reason := why, airtable := map[], env := []) }

    /** The columns the duplicate pass looks at, in its order. */
    function Column(n: nat): string {
      match n
      case 0 => identity
      case 1 => page.igId
      case 2 => page.pageId
      case _ => key
    }
  }

  const COLUMNS := 4
  const PROTECTED: set<string> := {"IDN-000036", "IDN-000041"}

  // ── text ───────────────────────────────────────────────────────────────────

  function Lower(c: char): char { if 'A' <= c <= 'Z' then c - 'A' + 'a' else c }

  predicate Ignored(c: char) { c == ' ' || c == '\t' || c == '\r' || c == '\n' || c == '@' || c == '/' }

  function Norm(s: string): string {
    if s == "" then ""
    else (if Ignored(s[0]) then "" else [Lower(s[0])]) + Norm(s[1..])
  }

  /** Names are compared character by character: blanks, slashes and at signs do not count, nor does case. */
  lemma {:induction false} NormSplits(s: string, t: string)
    ensures Norm(s + t) == Norm(s) + Norm(t)
  {
    if s == "" {
      assert s + t == t;
    } else {
      var head := if Ignored(s[0]) then "" else [Lower(s[0])];
      assert (s + t)[1..] == s[1..] + t && (s + t)[0] == s[0];
      NormSplits(s[1..], t);
      assert Norm(s + t) == head + Norm(s[1..] + t);
      assert head + (Norm(s[1..]) + Norm(t)) == (head + Norm(s[1..])) + Norm(t);
    }
  }

  lemma NormOfOne(c: char)
    ensures Norm([c]) == if c == ' ' || c == '\t' || c == '\r' || c == '\n' || c == '@' || c == '/' then ""
                         else if 'A' <= c <= 'Z' then [c - 'A' + 'a'] else [c]
  {
  }

  function DefaultKey(identity: string): (key: string)
    ensures |key| == |identity| && forall i | 0 <= i < |key| :: key[i] == '_' || key[i] == identity[i] != '-'
    ensures forall i | 0 <= i < |key| && key[i] != identity[i] :: identity[i] == '-'
  {
    seq(|identity|, i requires 0 <= i < |identity| => if identity[i] == '-' then '_' else identity[i])
  }

  predicate KeyForm(key: string) {
    key != "" && forall c | c in key :: 'A' <= c <= 'Z' || '0' <= c <= '9' || c == '_'
  }

  function EnvCount(env: seq<(string, string)>, k: string): nat {
    if env == [] then 0 else EnvCount(env[1..], k) + if env[0].0 == k then 1 else 0
  }

  /** The last assignment wins. */
  function EnvValue(env: seq<(string, string)>, k: string): string {
    if env == [] then "" else if env[|env| - 1].0 == k then env[|env| - 1].1 else EnvValue(env[..|env| - 1], k)
  }

  // ── accounts without a page ────────────────────────────────────────────────

  datatype IgAccount = IgAccount(id: string, username: string)

  /** The pages, and after them one page-less entry for every account id that no page has. */
  predicate Merged(pages: seq<Page>, accounts: seq<IgAccount>, out: seq<Page>) {
    && pages <= out
    && (forall i | |pages| <= i < |out| :: Pageless(out[i], accounts))
    && (forall i, j | |pages| <= j < |out| && 0 <= i < j :: out[i].igId != out[j].igId)
  }

  predicate Pageless(pg: Page, accounts: seq<IgAccount>) {
    pg.igId != "" && pg == Page("", "", true, pg.igId, pg.igUsername) && IgAccount(pg.igId, pg.igUsername) in accounts
  }

  method MergeIgOnly(pages: seq<Page>, accounts: seq<IgAccount>) returns (out: seq<Page>)
    ensures Merged(pages, accounts, out)
    ensures forall a | a in accounts && a.id != "" :: exists p :: p in out && p.igId == a.id
  {
    var seen := set p | p in pages && p.igId != "" :: p.igId;
    out := pages;
    for i := 0 to |accounts|
      invariant Merged(pages, accounts, out)
      invariant forall id :: id in seen <==> id != "" && exists p :: p in out && p.igId == id
      invariant forall j | 0 <= j < i && accounts[j].id != "" :: accounts[j].id in seen
    {
      var a := accounts[i];
      if a.id != "" && a.id !in seen {
        var entry := Page("", "", true, a.id, a.username);
        ghost var before := out;
        assert forall j | 0 <= j < |out| :: out[j] in out;
        seen := seen + {a.id};
        out := out + [entry];
        assert entry in out && forall p :: p in out <==> p in before || p == entry;
      }
    }
  }

  /** Which Instagram ids the list ends up with does not depend on the order of the accounts. */
  lemma MergeIsOrderFree(pages: seq<Page>, a: seq<IgAccount>, b: seq<IgAccount>, outA: seq<Page>, outB: seq<Page>, id: string)
    requires Merged(pages, a, outA) && (forall x | x in a && x.id != "" :: exists p :: p in outA && p.igId == x.id)
    requires Merged(pages, b, outB) && (forall x | x in b && x.id != "" :: exists p :: p in outB && p.igId == x.id)
    requires multiset(a) == multiset(b)
    ensures (exists p :: p in outA && p.igId == id) <==> (exists p :: p in outB && p.igId == id)
  {
    OneWay(pages, a, b, outA, outB, id);
    OneWay(pages, b, a, outB, outA, id);
  }

  lemma OneWay(pages: seq<Page>, a: seq<IgAccount>, b: seq<IgAccount>, outA: seq<Page>, outB: seq<Page>, id: string)
    requires Merged(pages, a, outA) && pages <= outB
    requires forall x | x in b && x.id != "" :: exists p :: p in outB && p.igId == x.id
    requires multiset(a) == multiset(b)
    ensures (exists p :: p in outA && p.igId == id) ==> (exists p :: p in outB && p.igId == id)
  {
    if p :| p in outA && p.igId == id {
      var i :| 0 <= i < |outA| && outA[i] == p;
      if i < |pages| {
        assert outB[i] == p;
      } else {
        assert Pageless(p, a) && IgAccount(p.igId, p.igUsername) in multiset(b);
      }
    }
  }

  // ── matching one page ──────────────────────────────────────────────────────

  function HolderOf(r: Rec): Holder { if r.identity != "" then Known(r.identity) else Nameless(r.id) }

  function Users(reg: seq<Rec>, f: Field, v: string): set<Holder> {
    if v == "" then {} else set r | r in reg && r.Get(f) == v :: HolderOf(r)
  }

  function Identities(hs: set<Holder>): set<string> { set h | h in hs && h.Known? :: h.identity }

  function ByInstagramName(ctx: Context, username: string): set<string> {
    if Norm(username) == "" then {}
    else (set r | r in ctx.reg && Norm(r.handle) == Norm(username) && r.identity != "" :: r.identity)
         + (set p | p in ctx.listings && p.platform == "Instagram" && Norm(p.username) == Norm(username) && p.identity != "" :: p.identity)
  }

  function ByPageName(ctx: Context, name: string): set<string> {
    if Norm(name) == "" then {}
    else set p | p in ctx.listings && p.platform == "FacebookPAGE" && Norm(p.username) == Norm(name) && p.identity != "" :: p.identity
  }

  function ById(ctx: Context, pg: Page): set<string> {
    Identities(Users(ctx.reg, IgUserId, pg.igId) + Users(ctx.reg, FbPageId, pg.pageId))
  }

  function ByName(ctx: Context, pg: Page): set<string> { ByInstagramName(ctx, pg.igUsername) + ByPageName(ctx, pg.pageName) }

  /** Every identity the page has anything to do with. */
  function Touched(ctx: Context, pg: Page): set<string> { ById(ctx, pg) + ByName(ctx, pg) }

  /** Ids first; names only where there is no id, and never against it. */
  function Match(ctx: Context, pg: Page): (set<string>, Reason) {
    MatchOf(ById(ctx, pg), ByInstagramName(ctx, pg.igUsername), ByPageName(ctx, pg.pageName))
  }

  function MatchOf(ids: set<string>, igs: set<string>, pgs: set<string>): (set<string>, Reason) {
    if |ids| > 1 then ({}, IdConflict)
    else if ids != {} then
      if igs + pgs != {} && !(ids <= igs + pgs) then ({}, NameConflict) else (ids, Fine)
    else if igs != {} && pgs != {} && igs != pgs then ({}, MatchConflict)
    else (if igs != {} then igs else pgs, Fine)
  }

  function Rows(reg: seq<Rec>, identity: string): seq<Rec> {
    if reg == [] then []
    else Rows(reg[..|reg| - 1], identity) + if reg[|reg| - 1].identity == identity then [reg[|reg| - 1]] else []
  }

  function Wanted(pg: Page, identity: string, key: string): map<Field, string> {
    var w := map[AccountCode := identity, IgUserId := pg.igId, CredentialKey := key, ApiProvider := "facebook_login"];
    if pg.pageId == "" then w else w[FbPageId := pg.pageId]
  }

  predicate TakenElsewhere(reg: seq<Rec>, f: Field, v: string, identity: string) {
    Users(reg, f, v) - {Known(identity)} != {}
  }

  predicate Conflicts(ctx: Context, pg: Page, r: Rec, key: string) {
    var want, envIg := Wanted(pg, r.identity, key), EnvValue(ctx.env, key + "_INSTA_IG_USER_ID");
    || (exists f | f in want :: r.Get(f) != "" && r.Get(f) != want[f])
    || !KeyForm(key)
    || TakenElsewhere(ctx.reg, IgUserId, pg.igId, r.identity)
    || TakenElsewhere(ctx.reg, FbPageId, pg.pageId, r.identity)
    || TakenElsewhere(ctx.reg, CredentialKey, key, r.identity)
    || EnvCount(ctx.env, key + "_INSTA_IG_USER_ID") > 1 || EnvCount(ctx.env, key + "_INSTA_ACCESS_TOKEN") > 1
    || (envIg != "" && envIg != pg.igId)
  }

  /** The writes for a row without conflicts. */
  function Writes(ctx: Context, pg: Page, r: Rec, key: string): Item {
    var want := Wanted(pg, r.identity, key);
    var airtable := map f | f in want && r.Get(f) == "" :: want[f];
    var env := (if EnvValue(ctx.env, key + "_INSTA_IG_USER_ID") == "" then [key + "_INSTA_IG_USER_ID"] else [])
               + (if EnvValue(ctx.env, key + "_INSTA_ACCESS_TOKEN") == "" then [key + "_INSTA_ACCESS_TOKEN"] else []);
    Item(pg, r.id, if !pg.isAssigned || airtable != map[] || env != [] then Ready else NoChange, Fine, r.identity, airtable, env, key)
  }

  /** What build_plan says about one page, before it looks at the others. */
  function Decide(ctx: Context, pg: Page): Item {
    if Touched(ctx, pg) * PROTECTED != {} then
      Nothing(pg, Protected, if "IDN-000036" in Touched(ctx, pg) then "IDN-000036" else "IDN-000041")
    else
      var (cands, why) := Match(ctx, pg);
      if why != Fine then Nothing(pg, why, "")
      else if |cands| != 1 then Nothing(pg, MatchCount(|cands|), "")
      else DecideIdentity(ctx, pg, TheOne(cands))
  }

  function Nothing(pg: Page, why: Reason, identity: string): Item { Item(pg, "", Skip, why, identity, map[], [], "") }

  function DecideIdentity(ctx: Context, pg: Page, identity: string): Item {
    var rows := Rows(ctx.reg, identity);
    if rows == [] then Nothing(pg, NoRecord, identity)
    else if |rows| != 1 then Nothing(pg, RecordCount(|rows|), identity)
    else DecideRow(ctx, pg, rows[0])
  }

  function DecideRow(ctx: Context, pg: Page, r: Rec): Item {
    if pg.igId == "" then
      Item(pg, r.id, if pg.isAssigned then Skip else Ready, if pg.isAssigned then NoInstagram else AssignOnly, r.identity, map[], [], "")
    else
      var key := if r.credentialKey != "" then r.credentialKey else DefaultKey(r.identity);
      if Conflicts(ctx, pg, r, key) then Item(pg, r.id, Skip, Conflict, r.identity, map[], [], "")
      else Writes(ctx, pg, r, key)
  }

  function TheOne(s: set<string>): (x: string)
    requires |s| == 1
    ensures s == {x}
  {
    OnlyOne(s);
    var x :| x in s;
    x
  }

  lemma OnlyOne(s: set<string>)
    requires |s| == 1
    ensures forall x, y | x in s && y in s :: x == y
    ensures forall x | x in s :: s == {x}
  {
    forall x, y | x in s && y in s ensures x == y {
      assert |s - {x}| == 0;
    }
  }

  // ── the whole plan ─────────────────────────────────────────────────────────

  function Each<A, B>(f: A -> B, s: seq<A>): seq<B> {
    seq(|s|, i requires 0 <= i < |s| => f(s[i]))
  }

  function Decider(ctx: Context): Page -> Item { (pg: Page) => Decide(ctx, pg) }

  function Decided(ctx: Context, pages: seq<Page>): seq<Item> { Each(Decider(ctx), pages) }

  /** Live items that have `v` in column `n`. */
  function Count(items: seq<Item>, n: nat, v: string): nat {
    if items == [] then 0
    else Count(items[..|items| - 1], n, v)
         + if items[|items| - 1].Live() && items[|items| - 1].Column(n) == v then 1 else 0
  }

  predicate Clashes(items: seq<Item>, it: Item, n: nat) {
    it.Column(n) != "" && Count(items, n, it.Column(n)) > 1
  }

  /** An item after the first `upTo` columns of the duplicate pass. */
  function After(items: seq<Item>, it: Item, upTo: nat): Item {
    if upTo == 0 then it
    else
      var before := After(items, it, upTo - 1);
      if it.Live() && before.Live() && Clashes(items, it, upTo - 1) then before.Skipped(Duplicate(upTo - 1)) else before
  }

  function PlanOf(ctx: Context, pages: seq<Page>): seq<Item> {
    WithoutDuplicates(Decided(ctx, pages))
  }

  function WithoutDuplicates(items: seq<Item>): seq<Item> {
    seq(|items|, i requires 0 <= i < |items| => After(items, items[i], COLUMNS))
  }

  method BuildPlan(ctx: Context, pages: seq<Page>) returns (plan: seq<Item>)
    ensures plan == PlanOf(ctx, pages)
  {
    plan := DecideAll(Decider(ctx), pages);
    plan := DropDuplicates(plan);
  }

  /** The first pass: one item a page, in order. */
  method DecideAll(decide: Page -> Item, pages: seq<Page>) returns (items: seq<Item>)
    ensures items == Each(decide, pages)
  {
    items := [];
    while |items| < |pages|
      invariant |items| <= |pages|
      invariant forall i | 0 <= i < |items| :: items[i] == decide(pages[i])
    {
      items := items + [decide(pages[|items|])];
    }
  }

  /** The second pass, column by column, in place. */
  method DropDuplicates(items: seq<Item>) returns (plan: seq<Item>)
    ensures plan == WithoutDuplicates(items)
  {
    plan := items;
    var n := 0;
    while n < COLUMNS
      invariant n <= COLUMNS && |plan| == |items|
      invariant forall i | 0 <= i < |plan| :: plan[i] == After(items, items[i], n)
    {
      var i := 0;
      while i < |plan|
        invariant 0 <= i <= |plan| == |items|
        invariant forall j | 0 <= j < i :: plan[j] == After(items, items[j], n + 1)
        invariant forall j | i <= j < |plan| :: plan[j] == After(items, items[j], n)
      {
        if items[i].Live() && plan[i].Live() && Clashes(items, items[i], n) {
          plan := plan[i := plan[i].Skipped(Duplicate(n))];
        }
        i := i + 1;
      }
      n := n + 1;
    }
  }

  /** A dropped item says in which column it clashed, and writes nothing. */
  predicate Dropped(it: Item, a: Item, n: nat) { a == it.(status := Skip, reason := Duplicate(n), airtable := map[], env := []) }

  /** The first column in which `it` clashes. */
  predicate FirstClash(items: seq<Item>, it: Item, n: nat, upTo: nat) {
    n < upTo && Clashes(items, it, n) && forall m: nat | m < n :: !Clashes(items, it, m)
  }

  lemma {:induction false} AfterKeeps(items: seq<Item>, it: Item, upTo: nat)
    requires upTo <= COLUMNS
    ensures var a := After(items, it, upTo);
            && a.page == it.page && a.identity == it.identity && a.key == it.key && a.recordId == it.recordId
            && (a.Live() ==> a == it && forall n: nat | n < upTo :: !Clashes(items, it, n))
            && (it.Live() && (forall n: nat | n < upTo :: !Clashes(items, it, n)) ==> a == it)
            && (!it.Live() ==> a == it)
            && (it.Live() && !a.Live() ==> exists n: nat :: FirstClash(items, it, n, upTo) && Dropped(it, a, n))
  {
    if upTo > 0 {
      AfterKeeps(items, it, upTo - 1);
      var before := After(items, it, upTo - 1);
      if it.Live() && before.Live() && Clashes(items, it, upTo - 1) {
        assert FirstClash(items, it, upTo - 1, upTo);
      } else if it.Live() && !before.Live() {
        var n: nat :| FirstClash(items, it, n, upTo - 1) && Dropped(it, before, n);
        assert FirstClash(items, it, n, upTo);
      }
    }
  }

  // ── order does not matter ──────────────────────────────────────────────────

  function Without<A>(s: seq<A>, j: nat): seq<A>
    requires j < |s|
  {
    s[..j] + s[j + 1..]
  }

  lemma PullOut<A>(s: seq<A>, j: nat)
    requires j < |s|
    ensures multiset(s) == multiset(Without(s, j)) + multiset{s[j]}
  {
    assert s == s[..j] + [s[j]] + s[j + 1..];
  }

  lemma EachPullsOut<A, B>(f: A -> B, s: seq<A>, j: nat)
    requires j < |s|
    ensures multiset(Each(f, s)) == multiset(Each(f, Without(s, j))) + multiset{f(s[j])}
  {
    PullOut(Each(f, s), j);
    assert Without(Each(f, s), j) == Each(f, Without(s, j));
  }

  lemma {:induction false} EachIsOrderFree<A, B>(f: A -> B, a: seq<A>, b: seq<A>)
    requires multiset(a) == multiset(b)
    ensures multiset(Each(f, a)) == multiset(Each(f, b))
    decreases |a|
  {
    if a == [] {
      assert |multiset(b)| == 0;
    } else {
      assert a[0] in multiset(b);
      var j :| 0 <= j < |b| && b[j] == a[0];
      PullOut(a, 0);
      PullOut(b, j);
      assert multiset(Without(a, 0)) == multiset(a) - multiset{a[0]} == multiset(Without(b, j));
      EachIsOrderFree(f, Without(a, 0), Without(b, j));
      EachPullsOut(f, a, 0);
      EachPullsOut(f, b, j);
    }
  }

  lemma {:induction false} CountPullsOut(items: seq<Item>, j: nat, n: nat, v: string)
    requires j < |items|
    ensures Count(items, n, v) == Count(Without(items, j), n, v) + if items[j].Live() && items[j].Column(n) == v then 1 else 0
  {
    var last, front := items[|items| - 1], items[..|items| - 1];
    if j == |front| {
      assert Without(items, j) == front;
    } else {
      CountPullsOut(front, j, n, v);
      assert Without(items, j) == Without(front, j) + [last];
      CountSnoc(Without(front, j), last, n, v);
    }
  }

  lemma CountSnoc(items: seq<Item>, it: Item, n: nat, v: string)
    ensures Count(items + [it], n, v) == Count(items, n, v) + if it.Live() && it.Column(n) == v then 1 else 0
  {
    assert (items + [it])[..|items|] == items;
  }

  lemma {:induction false} CountIsOrderFree(a: seq<Item>, b: seq<Item>, n: nat, v: string)
    requires multiset(a) == multiset(b)
    ensures Count(a, n, v) == Count(b, n, v)
    decreases |a|
  {
    if a == [] {
      assert |multiset(b)| == 0;
    } else {
      assert a[0] in multiset(b);
      var j :| 0 <= j < |b| && b[j] == a[0];
      PullOut(a, 0);
      PullOut(b, j);
      assert multiset(Without(a, 0)) == multiset(a) - multiset{a[0]} == multiset(Without(b, j));
      CountIsOrderFree(Without(a, 0), Without(b, j), n, v);
      CountPullsOut(a, 0, n, v);
      CountPullsOut(b, j, n, v);
    }
  }

  lemma {:induction false} AfterIsOrderFree(a: seq<Item>, b: seq<Item>, it: Item, upTo: nat)
    requires multiset(a) == multiset(b) && upTo <= COLUMNS
    ensures After(a, it, upTo) == After(b, it, upTo)
  {
    if upTo > 0 {
      AfterIsOrderFree(a, b, it, upTo - 1);
      CountIsOrderFree(a, b, upTo - 1, it.Column(upTo - 1));
    }
  }

  /** The plan for a page does not depend on where the page stands, nor on the order of the others. */
  lemma OrderIndependent(ctx: Context, a: seq<Page>, b: seq<Page>, i: nat, j: nat)
    requires multiset(a) == multiset(b) && i < |a| && j < |b| && a[i] == b[j]
    ensures PlanOf(ctx, a)[i] == PlanOf(ctx, b)[j]
  {
    EachIsOrderFree(Decider(ctx), a, b);
    AfterIsOrderFree(Decided(ctx, a), Decided(ctx, b), Decide(ctx, a[i]), COLUMNS);
  }

  // ── survivors ──────────────────────────────────────────────────────────────

  lemma {:induction false} TwoCount(items: seq<Item>, i: nat, j: nat, n: nat, v: string)
    requires i < j < |items| && items[i].Live() && items[j].Live() && items[i].Column(n) == items[j].Column(n) == v
    ensures Count(items, n, v) > 1
  {
    if j < |items| - 1 {
      TwoCount(items[..|items| - 1], i, j, n, v);
    } else {
      OneCounts(items[..|items| - 1], i, n, v);
    }
  }

  lemma {:induction false} OneCounts(items: seq<Item>, i: nat, n: nat, v: string)
    requires i < |items| && items[i].Live() && items[i].Column(n) == v
    ensures Count(items, n, v) > 0
  {
    if i < |items| - 1 {
      OneCounts(items[..|items| - 1], i, n, v);
    }
  }

  lemma {:induction false} SomeCounts(items: seq<Item>, n: nat, v: string) returns (j: nat)
    requires Count(items, n, v) > 0
    ensures j < |items| && items[j].Live() && items[j].Column(n) == v
  {
    var last := |items| - 1;
    if items[last].Live() && items[last].Column(n) == v {
      j := last;
    } else {
      j := SomeCounts(items[..last], n, v);
    }
  }

  predicate Rivals(items: seq<Item>, i: nat, j: nat, n: nat)
    requires i < |items|
  {
    j < |items| && j != i && items[j].Live() && items[j].Column(n) == items[i].Column(n) != ""
  }

  /** Two live items clash exactly when they share a value of the column that is not empty. */
  lemma ClashesExactly(items: seq<Item>, i: nat, n: nat)
    requires i < |items| && items[i].Live()
    ensures Clashes(items, items[i], n) <==> exists j: nat :: Rivals(items, i, j, n)
  {
    var v := items[i].Column(n);
    if Clashes(items, items[i], n) {
      CountPullsOut(items, i, n, v);
      var j := SomeCounts(Without(items, i), n, v);
      assert Rivals(items, i, if j < i then j else j + 1, n);
    }
    if j: nat :| Rivals(items, i, j, n) {
      if i < j { TwoCount(items, i, j, n, v); } else { TwoCount(items, j, i, n, v); }
    }
  }

  /** No two items left in the plan share an identity, an Instagram id, a page id or a credential key;
      and an item is dropped for no other reason than sharing one. */
  lemma SurvivorsAreApart(ctx: Context, pages: seq<Page>, i: nat, j: nat, n: nat)
    requires i < j < |pages| && n < COLUMNS
    requires PlanOf(ctx, pages)[i].Live() && PlanOf(ctx, pages)[j].Live()
    ensures PlanOf(ctx, pages)[i].Column(n) == "" || PlanOf(ctx, pages)[i].Column(n) != PlanOf(ctx, pages)[j].Column(n)
  {
    var items := Decided(ctx, pages);
    AfterKeeps(items, items[i], COLUMNS);
    AfterKeeps(items, items[j], COLUMNS);
    assert !Clashes(items, items[i], n);
    if items[i].Column(n) == items[j].Column(n) {
      TwoCount(items, i, j, n, items[i].Column(n));
    }
  }

  // ── applying a plan ────────────────────────────────────────────────────────

  function ApplyOne(reg: seq<Rec>, it: Item): seq<Rec> {
    seq(|reg|, i requires 0 <= i < |reg| => if reg[i].id == it.recordId then reg[i].Patch(it.airtable) else reg[i])
  }

  function ApplyAll(reg: seq<Rec>, items: seq<Item>): seq<Rec> {
    if items == [] then reg else ApplyOne(ApplyAll(reg, items[..|items| - 1]), items[|items| - 1])
  }

  predicate RecordIdsDistinct(reg: seq<Rec>) { forall i, j | 0 <= i < j < |reg| :: reg[i].id != reg[j].id }

  predicate UniqueIn(reg: seq<Rec>, f: Field) {
    forall i, j | 0 <= i < |reg| && 0 <= j < |reg| && i != j :: reg[i].Get(f) == "" || reg[i].Get(f) != reg[j].Get(f)
  }

  lemma {:induction false} NoRows(reg: seq<Rec>, identity: string)
    requires Rows(reg, identity) == []
    ensures forall i | 0 <= i < |reg| :: reg[i].identity != identity
  {
    if reg != [] {
      NoRows(reg[..|reg| - 1], identity);
    }
  }

  lemma {:induction false} TheRow(reg: seq<Rec>, identity: string) returns (k: nat)
    requires |Rows(reg, identity)| == 1
    ensures k < |reg| && reg[k] == Rows(reg, identity)[0]
    ensures forall i | 0 <= i < |reg| :: reg[i].identity == identity <==> i == k
  {
    var last := |reg| - 1;
    if reg[last].identity == identity {
      NoRows(reg[..last], identity);
      k := last;
    } else {
      k := TheRow(reg[..last], identity);
    }
  }

  /** The row `it` may write to: the only one of its identity. */
  predicate IsRowOf(reg: seq<Rec>, it: Item, k: nat) {
    k < |reg| && reg[k].id == it.recordId && reg[k].identity == it.identity
    && forall i | 0 <= i < |reg| && reg[i].identity == it.identity :: i == k
  }

  /** What a plan says about a page is fit to be applied: it names an unprotected identity with exactly one
      row, writes empty cells only, and no value that another row holds. */
  ghost predicate Fit(reg: seq<Rec>, it: Item) {
    && it.identity != "" && it.identity !in PROTECTED
    && (exists k: nat :: IsRowOf(reg, it, k) && forall f | f in it.airtable :: reg[k].Get(f) == "")
    && (forall f | f in it.airtable && f != AccountCode && f != ApiProvider ::
          it.airtable[f] == it.Column(ColumnOf(f)) != "" && !TakenElsewhere(reg, f, it.airtable[f], it.identity))
  }

  function ColumnOf(f: Field): nat {
    match f
    case IgUserId => 1
    case FbPageId => 2
    case _ => 3
  }

  lemma NoEmptyIdentity(ctx: Context, pg: Page)
    ensures "" !in Touched(ctx, pg)
  {
  }

  lemma MatchIsTouched(ctx: Context, pg: Page)
    ensures Match(ctx, pg).0 <= Touched(ctx, pg)
  {
    var ids, igs, pgs := ById(ctx, pg), ByInstagramName(ctx, pg.igUsername), ByPageName(ctx, pg.pageName);
    var m := Match(ctx, pg).0;
    assert m == {} || m == ids || m == igs || m == pgs;
    assert ids <= Touched(ctx, pg) && igs <= ByName(ctx, pg) && pgs <= ByName(ctx, pg);
  }

  lemma LiveIsFit(ctx: Context, pg: Page)
    requires Decide(ctx, pg).Live()
    ensures Fit(ctx.reg, Decide(ctx, pg))
  {
    MatchIsTouched(ctx, pg);
    NoEmptyIdentity(ctx, pg);
    var cands := Match(ctx, pg).0;
    var identity := TheOne(cands);
    assert identity in cands;
    var r := Rows(ctx.reg, identity)[0];
    var k := TheRow(ctx.reg, identity);
    LiveRowIsFit(ctx, pg, r, k);
  }

  lemma LiveRowIsFit(ctx: Context, pg: Page, r: Rec, k: nat)
    requires DecideRow(ctx, pg, r).Live() && r.identity != "" && r.identity !in PROTECTED
    requires k < |ctx.reg| && ctx.reg[k] == r && forall i | 0 <= i < |ctx.reg| :: ctx.reg[i].identity == r.identity <==> i == k
    ensures Fit(ctx.reg, DecideRow(ctx, pg, r))
  {
    assert IsRowOf(ctx.reg, DecideRow(ctx, pg, r), k);
  }

  // What links a page to an identity, said without the sets that build_plan collects.

  predicate HasId(ctx: Context, pg: Page, identity: string) {
    identity != "" && exists r :: r in ctx.reg && r.identity == identity
                                  && ((pg.igId != "" && r.igUserId == pg.igId) || (pg.pageId != "" && r.fbPageId == pg.pageId))
  }

  predicate HasInstagramName(ctx: Context, pg: Page, identity: string) {
    identity != "" && Norm(pg.igUsername) != ""
    && ((exists r :: r in ctx.reg && r.identity == identity && Norm(r.handle) == Norm(pg.igUsername))
        || exists p :: p in ctx.listings && p.identity == identity && p.platform == "Instagram" && Norm(p.username) == Norm(pg.igUsername))
  }

  predicate HasPageName(ctx: Context, pg: Page, identity: string) {
    identity != "" && Norm(pg.pageName) != ""
    && exists p :: p in ctx.listings && p.identity == identity && p.platform == "FacebookPAGE" && Norm(p.username) == Norm(pg.pageName)
  }

  predicate Links(ctx: Context, pg: Page, identity: string) {
    HasId(ctx, pg, identity) || HasInstagramName(ctx, pg, identity) || HasPageName(ctx, pg, identity)
  }

  /** The identity a page belongs to: the one its ids point to, unless its names all point elsewhere;
      without ids, the one all its names agree on. */
  ghost predicate BelongsTo(ctx: Context, pg: Page, identity: string) {
    if exists i :: HasId(ctx, pg, i) then
      && (forall i :: HasId(ctx, pg, i) <==> i == identity)
      && ((forall i :: !HasInstagramName(ctx, pg, i) && !HasPageName(ctx, pg, i))
          || HasInstagramName(ctx, pg, identity) || HasPageName(ctx, pg, identity))
    else
      && (HasInstagramName(ctx, pg, identity) || HasPageName(ctx, pg, identity))
      && (forall i :: HasInstagramName(ctx, pg, i) || HasPageName(ctx, pg, i) ==> i == identity)
  }

  lemma SetsOfLinks(ctx: Context, pg: Page)
    ensures forall i :: i in ById(ctx, pg) <==> HasId(ctx, pg, i)
    ensures forall i :: i in ByInstagramName(ctx, pg.igUsername) <==> HasInstagramName(ctx, pg, i)
    ensures forall i :: i in ByPageName(ctx, pg.pageName) <==> HasPageName(ctx, pg, i)
  {
    var users := Users(ctx.reg, IgUserId, pg.igId) + Users(ctx.reg, FbPageId, pg.pageId);
    forall i ensures i in ById(ctx, pg) <==> HasId(ctx, pg, i) {
      if i in ById(ctx, pg) {
        assert Known(i) in users;
      }
      if HasId(ctx, pg, i) {
        var r :| r in ctx.reg && r.identity == i && ((pg.igId != "" && r.igUserId == pg.igId) || (pg.pageId != "" && r.fbPageId == pg.pageId));
        assert r.Get(IgUserId) == r.igUserId && r.Get(FbPageId) == r.fbPageId;
        assert HolderOf(r) == Known(i) && Known(i) in users;
      }
    }
  }

  ghost predicate OnlyRow(reg: seq<Rec>, identity: string, k: nat) {
    k < |reg| && forall i | 0 <= i < |reg| :: reg[i].identity == identity <==> i == k
  }

  lemma {:induction false} OnlyRowIsFound(reg: seq<Rec>, identity: string, k: nat)
    requires OnlyRow(reg, identity, k)
    ensures Rows(reg, identity) == [reg[k]]
  {
    var front := reg[..|reg| - 1];
    if k == |reg| - 1 {
      NoneFound(front, identity);
    } else {
      OnlyRowIsFound(front, identity, k);
    }
  }

  lemma {:induction false} NoneFound(reg: seq<Rec>, identity: string)
    requires forall i | 0 <= i < |reg| :: reg[i].identity != identity
    ensures Rows(reg, identity) == []
  {
    if reg != [] {
      NoneFound(reg[..|reg| - 1], identity);
    }
  }

  lemma MatchFinds(ctx: Context, pg: Page, identity: string)
    ensures BelongsTo(ctx, pg, identity) <==> Match(ctx, pg) == ({identity}, Fine)
  {
    BelongsBySets(ctx, pg, identity);
    Matches(ById(ctx, pg), ByInstagramName(ctx, pg.igUsername), ByPageName(ctx, pg.pageName), identity);
  }

  predicate AgreesOn(ids: set<string>, igs: set<string>, pgs: set<string>, i: string) {
    if ids != {} then ids == {i} && (igs + pgs == {} || i in igs + pgs)
    else igs + pgs != {} && (igs == {} || igs == {i}) && (pgs == {} || pgs == {i})
  }

  lemma BelongsBySets(ctx: Context, pg: Page, identity: string)
    ensures BelongsTo(ctx, pg, identity) <==> AgreesOn(ById(ctx, pg), ByInstagramName(ctx, pg.igUsername), ByPageName(ctx, pg.pageName), identity)
  {
    SetsOfLinks(ctx, pg);
    Agree(ById(ctx, pg), ByInstagramName(ctx, pg.igUsername), ByPageName(ctx, pg.pageName), identity);
  }

  /** The same said with and without elements. */
  lemma Agree(ids: set<string>, igs: set<string>, pgs: set<string>, i: string)
    ensures ids != {} <==> exists x :: x in ids
    ensures ids == {i} <==> forall x :: x in ids <==> x == i
    ensures igs + pgs == {} <==> forall x :: x !in igs && x !in pgs
    ensures (igs + pgs != {} && (igs == {} || igs == {i}) && (pgs == {} || pgs == {i}))
            <==> ((i in igs || i in pgs) && forall x :: x in igs || x in pgs ==> x == i)
  {
    if (i in igs || i in pgs) && forall x :: x in igs || x in pgs ==> x == i {
      assert igs <= {i} && pgs <= {i};
    }
    if igs + pgs != {} && (igs == {} || igs == {i}) && (pgs == {} || pgs == {i}) {
      assert i in igs + pgs;
    }
    if igs + pgs == {} {
      assert forall x :: x !in igs + pgs;
    }
  }

  /** The same of any three candidate sets. */
  lemma Matches(ids: set<string>, igs: set<string>, pgs: set<string>, i: string)
    ensures AgreesOn(ids, igs, pgs, i) <==> MatchOf(ids, igs, pgs) == ({i}, Fine)
  {
    if |ids| == 1 {
      var x := TheOne(ids);
    }
  }

  /** The key of a row: its own, or one made of its identity. */
  predicate IsKeyOf(r: Rec, key: string) { key == if r.credentialKey != "" then r.credentialKey else DefaultKey(r.identity) }

  /** A cell is empty, or right already. */
  predicate Open(have: string, want: string) { have == "" || have == want }

  /** Nothing stands in the way of connecting the page to the row under `key`: no cell holds anything else,
      no other row holds its ids or its key, and the environment holds each variable once at most, with
      the id of the page if any. */
  predicate Unopposed(ctx: Context, pg: Page, r: Rec, key: string) {
    && Open(r.accountCode, r.identity) && Open(r.igUserId, pg.igId) && Open(r.credentialKey, key) && Open(r.apiProvider, "facebook_login")
    && (pg.pageId != "" ==> Open(r.fbPageId, pg.pageId))
    && KeyForm(key)
    && (forall o | o in ctx.reg && o.identity != r.identity ::
          o.igUserId != pg.igId && o.credentialKey != key && (pg.pageId != "" ==> o.fbPageId != pg.pageId))
    && OnceAtMost(ctx.env, key + "_INSTA_IG_USER_ID") && OnceAtMost(ctx.env, key + "_INSTA_ACCESS_TOKEN")
    && (forall e | e in ctx.env && e.0 == key + "_INSTA_IG_USER_ID" :: e.1 == "" || e.1 == pg.igId)
  }

  predicate OnceAtMost(env: seq<(string, string)>, k: string) {
    forall i, j | 0 <= i < j < |env| && env[i].0 == k :: env[j].0 != k
  }

  lemma {:induction false} CountsEnv(env: seq<(string, string)>, k: string)
    ensures EnvCount(env, k) == 0 <==> forall i | 0 <= i < |env| :: env[i].0 != k
    ensures EnvCount(env, k) <= 1 <==> OnceAtMost(env, k)
  {
    if env != [] {
      var rest := env[1..];
      CountsEnv(rest, k);
      assert forall i | 0 <= i < |rest| :: rest[i] == env[i + 1];
      if OnceAtMost(env, k) {
        assert OnceAtMost(rest, k);
        if env[0].0 == k {
          forall i | 0 <= i < |rest| ensures rest[i].0 != k {
            assert env[i + 1].0 != k;
          }
        }
      }
      if EnvCount(env, k) <= 1 {
        forall i, j | 0 <= i < j < |env| && env[i].0 == k ensures env[j].0 != k {
          assert env[j] == rest[j - 1] && (i > 0 ==> env[i] == rest[i - 1]);
        }
      }
    }
  }

  /** With no key twice, the value that counts is the only one. */
  lemma {:induction false} ValueInEnv(env: seq<(string, string)>, k: string, v: string)
    requires OnceAtMost(env, k)
    ensures EnvValue(env, k) == "" || EnvValue(env, k) == v <==> forall e | e in env && e.0 == k :: e.1 == "" || e.1 == v
  {
    if env != [] {
      var front, last := env[..|env| - 1], env[|env| - 1];
      assert forall i | 0 <= i < |front| :: front[i] == env[i];
      assert OnceAtMost(front, k);
      if last.0 == k {
        forall e | e in env && e.0 == k ensures e == last {
          var i :| 0 <= i < |env| && env[i] == e;
        }
      } else {
        ValueInEnv(front, k, v);
        assert forall e :: e in env <==> e in front || e == last;
      }
    }
  }

  lemma ConflictsMean(ctx: Context, pg: Page, r: Rec, key: string)
    requires pg.igId != "" && r.identity != ""
    ensures Conflicts(ctx, pg, r, key) <==> !Unopposed(ctx, pg, r, key)
  {
    CellsMean(pg, r, key);
    HeldElsewhere(ctx.reg, IgUserId, pg.igId, r.identity);
    HeldElsewhere(ctx.reg, FbPageId, pg.pageId, r.identity);
    if key != "" {
      HeldElsewhere(ctx.reg, CredentialKey, key, r.identity);
    }
    CountsEnv(ctx.env, key + "_INSTA_IG_USER_ID");
    CountsEnv(ctx.env, key + "_INSTA_ACCESS_TOKEN");
    if OnceAtMost(ctx.env, key + "_INSTA_IG_USER_ID") {
      ValueInEnv(ctx.env, key + "_INSTA_IG_USER_ID", pg.igId);
    }
  }

  lemma CellsMean(pg: Page, r: Rec, key: string)
    ensures var want := Wanted(pg, r.identity, key);
            (exists f | f in want :: r.Get(f) != "" && r.Get(f) != want[f]) <==>
            !(Open(r.accountCode, r.identity) && Open(r.igUserId, pg.igId) && Open(r.credentialKey, key) && Open(r.apiProvider, "facebook_login")
              && (pg.pageId != "" ==> Open(r.fbPageId, pg.pageId)))
  {
    var want := Wanted(pg, r.identity, key);
    assert AccountCode in want && IgUserId in want && CredentialKey in want && ApiProvider in want && (FbPageId in want <==> pg.pageId != "");
    assert r.Get(AccountCode) == r.accountCode && r.Get(IgUserId) == r.igUserId && r.Get(CredentialKey) == r.credentialKey;
    assert r.Get(ApiProvider) == r.apiProvider && r.Get(FbPageId) == r.fbPageId;
  }

  lemma HeldElsewhere(reg: seq<Rec>, f: Field, v: string, identity: string)
    requires identity != ""
    ensures TakenElsewhere(reg, f, v, identity) <==> v != "" && exists o :: o in reg && o.identity != identity && o.Get(f) == v
  {
    if v != "" {
      var others := Users(reg, f, v) - {Known(identity)};
      if o :| o in reg && o.identity != identity && o.Get(f) == v {
        assert HolderOf(o) in others;
      }
      if others != {} {
        var h :| h in others;
        var o :| o in reg && o.Get(f) == v && HolderOf(o) == h;
        assert o.identity != identity;
      }
    }
  }

  /** Whether the row found lets the page be handled. */
  ghost predicate RowAllows(ctx: Context, pg: Page, r: Rec) {
    if pg.igId == "" then !pg.isAssigned else exists key :: IsKeyOf(r, key) && Unopposed(ctx, pg, r, key)
  }

  lemma RowDecides(ctx: Context, pg: Page, r: Rec)
    requires r.identity != ""
    ensures DecideRow(ctx, pg, r).Live() <==> RowAllows(ctx, pg, r)
  {
    if pg.igId != "" {
      var key := if r.credentialKey != "" then r.credentialKey else DefaultKey(r.identity);
      ConflictsMean(ctx, pg, r, key);
      assert IsKeyOf(r, key) && forall k :: IsKeyOf(r, k) ==> k == key;
    }
  }

  ghost predicate Unprotected(ctx: Context, pg: Page) { !Links(ctx, pg, "IDN-000036") && !Links(ctx, pg, "IDN-000041") }

  lemma ProtectionMeans(ctx: Context, pg: Page)
    ensures Touched(ctx, pg) * PROTECTED == {} <==> Unprotected(ctx, pg)
  {
    SetsOfLinks(ctx, pg);
    var both := Touched(ctx, pg) * PROTECTED;
    assert forall i :: i in both <==> (i == "IDN-000036" || i == "IDN-000041") && Links(ctx, pg, i);
  }

  lemma BelongsIsNamed(ctx: Context, pg: Page, identity: string)
    requires BelongsTo(ctx, pg, identity)
    ensures identity != ""
  {
  }

  /** Exactly when a page is handled at all: it has nothing to do with a protected identity, it belongs to
      one identity, that identity has one row, and the row allows it. */
  lemma LiveExactlyWhen(ctx: Context, pg: Page)
    ensures Decide(ctx, pg).Live() <==>
              Unprotected(ctx, pg)
              && exists identity, k: nat :: BelongsTo(ctx, pg, identity) && OnlyRow(ctx.reg, identity, k) && RowAllows(ctx, pg, ctx.reg[k])
  {
    ProtectionMeans(ctx, pg);
    if Decide(ctx, pg).Live() {
      var identity := TheOne(Match(ctx, pg).0);
      MatchFinds(ctx, pg, identity);
      BelongsIsNamed(ctx, pg, identity);
      var k := TheRow(ctx.reg, identity);
      RowDecides(ctx, pg, ctx.reg[k]);
      assert OnlyRow(ctx.reg, identity, k) && RowAllows(ctx, pg, ctx.reg[k]);
    }
    if Unprotected(ctx, pg) {
      forall identity, k: nat | BelongsTo(ctx, pg, identity) && OnlyRow(ctx.reg, identity, k) && RowAllows(ctx, pg, ctx.reg[k])
        ensures Decide(ctx, pg).Live()
      {
        BelongingIsLive(ctx, pg, identity, k);
      }
    }
  }

  lemma BelongingIsLive(ctx: Context, pg: Page, identity: string, k: nat)
    requires Unprotected(ctx, pg)
    requires BelongsTo(ctx, pg, identity) && OnlyRow(ctx.reg, identity, k) && RowAllows(ctx, pg, ctx.reg[k])
    ensures Decide(ctx, pg).Live()
  {
    ProtectionMeans(ctx, pg);
    MatchFinds(ctx, pg, identity);
    BelongsIsNamed(ctx, pg, identity);
    OnlyRowIsFound(ctx.reg, identity, k);
    RowDecides(ctx, pg, ctx.reg[k]);
    assert TheOne({identity}) == identity by {
      assert identity in {TheOne({identity})};
    }
    assert Decide(ctx, pg) == DecideRow(ctx, pg, ctx.reg[k]);
  }

  predicate Named(ctx: Context, pg: Page, i: string) { HasInstagramName(ctx, pg, i) || HasPageName(ctx, pg, i) }

  /** Why a page is left alone is said truly: protection before everything else; then ids that point to two
      identities; then names that all contradict the one id; then, without ids, names that disagree. */
  lemma ReasonsAreTrue(ctx: Context, pg: Page)
    ensures var x := Decide(ctx, pg);
            && (x.reason.Protected? <==> !Unprotected(ctx, pg))
            && (x.reason.Protected? ==> x.identity == if Links(ctx, pg, "IDN-000036") then "IDN-000036" else "IDN-000041")
            && (x.reason.IdConflict? <==> Unprotected(ctx, pg) && exists i, j :: HasId(ctx, pg, i) && HasId(ctx, pg, j) && i != j)
            && (x.reason.NameConflict? <==>
                  && Unprotected(ctx, pg) && (exists i :: Named(ctx, pg, i))
                  && exists i :: HasId(ctx, pg, i) && !Named(ctx, pg, i) && forall j :: HasId(ctx, pg, j) ==> j == i)
            && (x.reason.MatchConflict? <==>
                  && Unprotected(ctx, pg) && (forall i :: !HasId(ctx, pg, i))
                  && (exists i :: HasInstagramName(ctx, pg, i)) && (exists i :: HasPageName(ctx, pg, i))
                  && exists i :: HasInstagramName(ctx, pg, i) != HasPageName(ctx, pg, i))
  {
    var ids, igs, pgs := ById(ctx, pg), ByInstagramName(ctx, pg.igUsername), ByPageName(ctx, pg.pageName);
    SetsOfLinks(ctx, pg);
    ProtectionMeans(ctx, pg);
    assert Links(ctx, pg, "IDN-000036") <==> "IDN-000036" in Touched(ctx, pg);
    if Unprotected(ctx, pg) {
      DecidedFor(ctx, pg);
    }
    MatchedFor(ids, igs, pgs);
    assert forall i :: Named(ctx, pg, i) <==> i in igs || i in pgs;
  }

  predicate OfMatching(why: Reason) { why.IdConflict? || why.NameConflict? || why.MatchConflict? }

  lemma IdentityReason(ctx: Context, pg: Page, identity: string)
    ensures var why := DecideIdentity(ctx, pg, identity).reason; !OfMatching(why) && !why.Protected?
    ensures DecideIdentity(ctx, pg, identity).reason.NoRecord? <==> forall r | r in ctx.reg :: r.identity != identity
  {
    if Rows(ctx.reg, identity) == [] {
      NoRows(ctx.reg, identity);
    }
    if forall r | r in ctx.reg :: r.identity != identity {
      NoneFound(ctx.reg, identity);
    }
  }

  /** The reason of a page that touches nothing protected is the reason of its match, unless that is fine. */
  lemma DecidedFor(ctx: Context, pg: Page)
    requires Touched(ctx, pg) * PROTECTED == {}
    ensures var why, reason := Match(ctx, pg).1, Decide(ctx, pg).reason;
            if why != Fine then reason == why else !OfMatching(reason) && !reason.Protected?
  {
    forall identity {
      IdentityReason(ctx, pg, identity);
    }
  }

  lemma MatchedFor(ids: set<string>, igs: set<string>, pgs: set<string>)
    ensures var why := MatchOf(ids, igs, pgs).1;
            && (why == IdConflict <==> exists i, j :: i in ids && j in ids && i != j)
            && (why == NameConflict <==>
                  (exists i :: i in igs || i in pgs) && exists i :: i in ids && i !in igs && i !in pgs && forall j :: j in ids ==> j == i)
            && (why == MatchConflict <==>
                  (forall i :: i !in ids) && (exists i :: i in igs) && (exists i :: i in pgs) && exists i :: (i in igs) != (i in pgs))
            && (why == Fine || why == IdConflict || why == NameConflict || why == MatchConflict)
  {
    if ids != {} {
      var i :| i in ids;
      if |ids| == 1 {
        OnlyOne(ids);
      } else {
        assert |ids - {i}| == |ids| - 1 > 0;
        var j :| j in ids - {i};
      }
    }
    if igs != pgs && igs != {} && pgs != {} {
      assert exists i :: (i in igs) != (i in pgs);
    }
  }

  /** What is left to do for a page that is handled: to assign it, to fill the empty cells it has a value
      for, to add the variables that have none; and nothing at all exactly when it is called no_change. */
  lemma NothingToDoExactly(ctx: Context, pg: Page)
    requires Decide(ctx, pg).Live() && pg.igId != ""
    ensures var x := Decide(ctx, pg);
            && (forall e :: e in x.env <==> (e == x.key + "_INSTA_IG_USER_ID" || e == x.key + "_INSTA_ACCESS_TOKEN") && EnvValue(ctx.env, e) == "")
            && (x.status.NoChange? <==> pg.isAssigned && x.env == [] && forall f :: f !in x.airtable)
            && x.page == pg
  {
    var k, r := DecidedRow(ctx, pg, Decide(ctx, pg));
    NothingToWrite(ctx, pg, r);
  }

  lemma NothingToWrite(ctx: Context, pg: Page, r: Rec)
    requires DecideRow(ctx, pg, r).Live() && pg.igId != ""
    ensures var x := DecideRow(ctx, pg, r);
            && (forall e :: e in x.env <==> (e == x.key + "_INSTA_IG_USER_ID" || e == x.key + "_INSTA_ACCESS_TOKEN") && EnvValue(ctx.env, e) == "")
            && (x.status.NoChange? <==> pg.isAssigned && x.env == [] && forall f :: f !in x.airtable)
  {
    var x := DecideRow(ctx, pg, r);
    assert x.airtable == map[] <==> forall f :: f !in x.airtable;
  }

  /** The smallest page there is to handle: one row, which knows the Instagram id of the page. */
  lemma AKnownAccountIsLive(r: Rec, pg: Page)
    requires r.identity != "" && r.identity !in PROTECTED && r.handle == "" && r.credentialKey == "" && KeyForm(DefaultKey(r.identity))
    requires r.igUserId == pg.igId != "" && r.accountCode == r.fbPageId == r.apiProvider == "" && pg == Page("", "", true, pg.igId, "")
    ensures Decide(Context([r], [], []), pg).Live()
  {
    var ctx := Context([r], [], []);
    assert r in ctx.reg && HasId(ctx, pg, r.identity);
    assert IsKeyOf(r, DefaultKey(r.identity)) && Unopposed(ctx, pg, r, DefaultKey(r.identity));
    BelongingIsLive(ctx, pg, r.identity, 0);
  }

  /** The items of a plan that may be applied, as a selection in any order. */
  ghost predicate Selected(ctx: Context, pages: seq<Page>, items: seq<Item>) {
    forall x | x in items :: x in PlanOf(ctx, pages) && x.Live()
  }

  /** A live item of the plan is what was decided for its page, and clashes with nothing. */
  lemma Origin(ctx: Context, pages: seq<Page>, x: Item) returns (i: nat)
    requires x in PlanOf(ctx, pages) && x.Live()
    ensures i < |Decided(ctx, pages)| && Decided(ctx, pages)[i] == x
    ensures forall n: nat | n < COLUMNS :: !Clashes(Decided(ctx, pages), x, n)
  {
    var items := Decided(ctx, pages);
    i :| 0 <= i < |items| && WithoutDuplicates(items)[i] == x;
    AfterKeeps(items, items[i], COLUMNS);
  }

  lemma SelectedAreFit(ctx: Context, pages: seq<Page>, x: Item)
    requires x in PlanOf(ctx, pages) && x.Live()
    ensures Fit(ctx.reg, x)
  {
    var i := Origin(ctx, pages, x);
    assert x == Decide(ctx, pages[i]);
    LiveIsFit(ctx, pages[i]);
  }

  lemma SelectedAreApart(ctx: Context, pages: seq<Page>, x: Item, y: Item, n: nat)
    requires x in PlanOf(ctx, pages) && x.Live() && y in PlanOf(ctx, pages) && y.Live()
    requires n < COLUMNS && x.Column(n) == y.Column(n) != ""
    ensures x == y
  {
    var i := Origin(ctx, pages, x);
    var j := Origin(ctx, pages, y);
    SameSpot(Decided(ctx, pages), i, j, n);
  }

  lemma SameSpot(items: seq<Item>, i: nat, j: nat, n: nat)
    requires i < |items| && j < |items| && items[i].Live() && items[j].Live()
    requires !Clashes(items, items[i], n) && items[i].Column(n) == items[j].Column(n) != ""
    ensures i == j
  {
    if i < j {
      TwoCount(items, i, j, n, items[i].Column(n));
    } else if j < i {
      TwoCount(items, j, i, n, items[i].Column(n));
    }
  }

  /** Where a cell of the registry comes from after some items were applied. */
  predicate Written(reg: seq<Rec>, items: seq<Item>, k: nat, f: Field, v: string, m: nat)
    requires k < |reg|
  {
    m < |items| && items[m].recordId == reg[k].id && f in items[m].airtable && items[m].airtable[f] == v
  }

  lemma {:induction false} Provenance(reg: seq<Rec>, items: seq<Item>, k: nat, f: Field)
    requires k < |reg|
    ensures var reg' := ApplyAll(reg, items);
            && |reg'| == |reg| && reg'[k].id == reg[k].id && reg'[k].identity == reg[k].identity
            && (reg'[k].Get(f) == reg[k].Get(f) || exists m: nat :: Written(reg, items, k, f, reg'[k].Get(f), m))
  {
    if items != [] {
      var front, last := items[..|items| - 1], |items| - 1;
      Provenance(reg, front, k, f);
      var mid := ApplyAll(reg, front);
      if mid[k].id == items[last].recordId && f in items[last].airtable {
        assert Written(reg, items, k, f, ApplyAll(reg, items)[k].Get(f), last);
      } else if mid[k].Get(f) != reg[k].Get(f) {
        var m: nat :| Written(reg, front, k, f, mid[k].Get(f), m);
        assert Written(reg, items, k, f, ApplyAll(reg, items)[k].Get(f), m);
      }
    }
  }

  /** A cell that changed was empty, and now holds what exactly one item of the plan wants there. */
  lemma ChangedCell(ctx: Context, pages: seq<Page>, items: seq<Item>, k: nat, f: Field) returns (x: Item)
    requires Selected(ctx, pages, items) && RecordIdsDistinct(ctx.reg) && k < |ctx.reg|
    requires |ApplyAll(ctx.reg, items)| == |ctx.reg| && ApplyAll(ctx.reg, items)[k].Get(f) != ctx.reg[k].Get(f)
    ensures x in items && Fit(ctx.reg, x) && IsRowOf(ctx.reg, x, k)
    ensures ctx.reg[k].Get(f) == "" && f in x.airtable && x.airtable[f] == ApplyAll(ctx.reg, items)[k].Get(f)
  {
    Provenance(ctx.reg, items, k, f);
    var m: nat :| Written(ctx.reg, items, k, f, ApplyAll(ctx.reg, items)[k].Get(f), m);
    x := items[m];
    SelectedAreFit(ctx, pages, x);
    var row: nat :| IsRowOf(ctx.reg, x, row) && forall f | f in x.airtable :: ctx.reg[row].Get(f) == "";
    assert row == k;
  }

  /** No cell that held something is changed, whatever part of the plan was applied. */
  lemma FilledCellsStay(ctx: Context, pages: seq<Page>, items: seq<Item>, k: nat, f: Field)
    requires Selected(ctx, pages, items) && RecordIdsDistinct(ctx.reg) && k < |ctx.reg| && ctx.reg[k].Get(f) != ""
    ensures |ApplyAll(ctx.reg, items)| == |ctx.reg| && ApplyAll(ctx.reg, items)[k].Get(f) == ctx.reg[k].Get(f)
  {
    Provenance(ctx.reg, items, k, f);
    if ApplyAll(ctx.reg, items)[k].Get(f) != ctx.reg[k].Get(f) {
      var x := ChangedCell(ctx, pages, items, k, f);
    }
  }

  /** A value newly written is held by no row that was left as it was. */
  lemma NewValueIsFree(reg: seq<Rec>, x: Item, k: nat, f: Field, b: nat)
    requires Fit(reg, x) && IsRowOf(reg, x, k) && f in x.airtable && b < |reg| && b != k
    requires f != AccountCode && f != ApiProvider
    ensures reg[b].Get(f) != x.airtable[f]
  {
    var v, other := x.airtable[f], reg[b];
    assert v != "" && Users(reg, f, v) <= {Known(x.identity)};
    assert other in reg && HolderOf(other) != Known(x.identity);
    assert other.Get(f) == v ==> HolderOf(other) in Users(reg, f, v);
  }

  /** Instagram ids, page ids and credential keys stay unique in the registry, whatever part of the plan
      was applied, in whatever order, and wherever it stopped. */
  lemma RegistryStaysUnique(ctx: Context, pages: seq<Page>, items: seq<Item>, f: Field)
    requires Selected(ctx, pages, items) && RecordIdsDistinct(ctx.reg)
    requires f != AccountCode && f != ApiProvider && UniqueIn(ctx.reg, f)
    ensures UniqueIn(ApplyAll(ctx.reg, items), f)
  {
    var reg, reg' := ctx.reg, ApplyAll(ctx.reg, items);
    SameShape(reg, items);
    forall a, b | 0 <= a < |reg'| && 0 <= b < |reg'| && a != b ensures reg'[a].Get(f) == "" || reg'[a].Get(f) != reg'[b].Get(f) {
      if reg'[a].Get(f) == reg'[b].Get(f) {
        if reg'[a].Get(f) != reg[a].Get(f) {
          var x := ChangedCell(ctx, pages, items, a, f);
          NewValueIsFree(reg, x, a, f, b);
          var y := ChangedCell(ctx, pages, items, b, f);
          SelectedAreApart(ctx, pages, x, y, ColumnOf(f));
        } else if reg'[b].Get(f) != reg[b].Get(f) {
          var y := ChangedCell(ctx, pages, items, b, f);
          NewValueIsFree(reg, y, b, f, a);
        }
      }
    }
  }

  lemma {:induction false} SameShape(reg: seq<Rec>, items: seq<Item>)
    ensures |ApplyAll(reg, items)| == |reg|
  {
    if items != [] {
      SameShape(reg, items[..|items| - 1]);
    }
  }

  /** The row of an item that was applied ends up with everything the item wanted for it. */
  lemma {:induction false} LastWord(reg: seq<Rec>, items: seq<Item>, k: nat, f: Field, v: string)
    requires k < |reg| && exists m: nat :: Written(reg, items, k, f, v, m)
    requires forall m | 0 <= m < |items| && items[m].recordId == reg[k].id && f in items[m].airtable :: items[m].airtable[f] == v
    ensures |ApplyAll(reg, items)| == |reg| && ApplyAll(reg, items)[k].Get(f) == v
  {
    SameShape(reg, items);
    var front, last := items[..|items| - 1], items[|items| - 1];
    SameShape(reg, front);
    Provenance(reg, front, k, f);
    if !(last.recordId == reg[k].id && f in last.airtable) {
      var m: nat :| Written(reg, items, k, f, v, m);
      assert Written(reg, front, k, f, v, m);
      LastWord(reg, front, k, f, v);
    }
  }

  lemma AppliedRowIsComplete(ctx: Context, pages: seq<Page>, items: seq<Item>, x: Item, f: Field) returns (k: nat)
    requires Selected(ctx, pages, items) && RecordIdsDistinct(ctx.reg) && x in items && x.page.igId != ""
    requires f in Wanted(x.page, x.identity, x.key)
    ensures IsRowOf(ctx.reg, x, k) && |ApplyAll(ctx.reg, items)| == |ctx.reg|
    ensures ApplyAll(ctx.reg, items)[k].Get(f) == Wanted(x.page, x.identity, x.key)[f]
  {
    var want := Wanted(x.page, x.identity, x.key)[f];
    SelectedAreFit(ctx, pages, x);
    k := LiveFills(ctx, pages, x, f);
    if ctx.reg[k].Get(f) != "" {
      FilledCellsStay(ctx, pages, items, k, f);
    } else {
      var m :| 0 <= m < |items| && items[m] == x;
      assert Written(ctx.reg, items, k, f, want, m);
      forall m | 0 <= m < |items| && items[m].recordId == ctx.reg[k].id && f in items[m].airtable
        ensures items[m].airtable[f] == want
      {
        SameRowSameItem(ctx, pages, items[m], x, k);
      }
      LastWord(ctx.reg, items, k, f, want);
    }
  }

  /** Two items of one row are one item. */
  lemma SameRowSameItem(ctx: Context, pages: seq<Page>, x: Item, y: Item, k: nat)
    requires x in PlanOf(ctx, pages) && x.Live() && y in PlanOf(ctx, pages) && y.Live()
    requires RecordIdsDistinct(ctx.reg) && k < |ctx.reg| && x.recordId == y.recordId == ctx.reg[k].id
    ensures x == y
  {
    SelectedAreFit(ctx, pages, x);
    SelectedAreFit(ctx, pages, y);
    var i: nat :| IsRowOf(ctx.reg, x, i) && forall f | f in x.airtable :: ctx.reg[i].Get(f) == "";
    var j: nat :| IsRowOf(ctx.reg, y, j) && forall f | f in y.airtable :: ctx.reg[j].Get(f) == "";
    assert i == k && j == k;
    SelectedAreApart(ctx, pages, x, y, 0);
  }

  /** A live item with an Instagram id finds each wanted cell right, or empty and on its list of writes. */
  lemma LiveFills(ctx: Context, pages: seq<Page>, x: Item, f: Field) returns (k: nat)
    requires x in PlanOf(ctx, pages) && x.Live() && x.page.igId != "" && f in Wanted(x.page, x.identity, x.key)
    ensures IsRowOf(ctx.reg, x, k)
    ensures var want := Wanted(x.page, x.identity, x.key)[f];
            if ctx.reg[k].Get(f) == "" then f in x.airtable && x.airtable[f] == want else ctx.reg[k].Get(f) == want
  {
    var i := Origin(ctx, pages, x);
    assert x == Decide(ctx, pages[i]);
    var r;
    k, r := DecidedRow(ctx, pages[i], x);
    RowFills(ctx, pages[i], r, f);
  }

  /** A live item is what was decided for the one row of its identity. */
  lemma DecidedRow(ctx: Context, pg: Page, x: Item) returns (k: nat, r: Rec)
    requires x == Decide(ctx, pg) && x.Live()
    ensures k < |ctx.reg| && ctx.reg[k] == r && x == DecideRow(ctx, pg, r) && x.page == pg && x.identity == r.identity
    ensures IsRowOf(ctx.reg, x, k)
  {
    var identity := TheOne(Match(ctx, pg).0);
    k := TheRow(ctx.reg, identity);
    r := ctx.reg[k];
  }

  lemma RowFills(ctx: Context, pg: Page, r: Rec, f: Field)
    requires DecideRow(ctx, pg, r).Live() && pg.igId != "" && f in Wanted(pg, r.identity, DecideRow(ctx, pg, r).key)
    ensures var x := DecideRow(ctx, pg, r); var want := Wanted(pg, r.identity, x.key)[f];
            && x.page == pg && x.identity == r.identity && x.recordId == r.id
            && if r.Get(f) == "" then f in x.airtable && x.airtable[f] == want else r.Get(f) == want
  {
  }

  /** Nothing ready, and nothing applied, ever concerns a protected identity. */
  lemma ProtectedRowsStay(ctx: Context, pages: seq<Page>, items: seq<Item>, k: nat)
    requires Selected(ctx, pages, items) && RecordIdsDistinct(ctx.reg) && k < |ctx.reg| && ctx.reg[k].identity in PROTECTED
    ensures forall x | x in items :: x.identity !in PROTECTED
    ensures forall f: Field :: |ApplyAll(ctx.reg, items)| == |ctx.reg| && ApplyAll(ctx.reg, items)[k].Get(f) == ctx.reg[k].Get(f)
  {
    forall x | x in items ensures x.identity !in PROTECTED {
      SelectedAreFit(ctx, pages, x);
    }
    SameShape(ctx.reg, items);
    forall f: Field ensures ApplyAll(ctx.reg, items)[k].Get(f) == ctx.reg[k].Get(f) {
      if ApplyAll(ctx.reg, items)[k].Get(f) != ctx.reg[k].Get(f) {
        var x := ChangedCell(ctx, pages, items, k, f);
      }
    }
  }

  // ── apply_plan ─────────────────────────────────────────────────────────────

  datatype WriteKind = MetaAssign | AirtablePatch | EnvAppend
  datatype Verdict = Applied | NotApplied | Unknown
  datatype Write = Write(kind: WriteKind, item: Option<Item>, verdict: Verdict)

  /** `landed[i]`: whether write `i` really took effect. */
  predicate Covers(writes: seq<Write>, landed: seq<bool>) {
    |writes| == |landed| && forall i | 0 <= i < |writes| :: (writes[i].verdict.Applied? ==> landed[i]) && (landed[i] ==> !writes[i].verdict.NotApplied?)
  }

  predicate AllApplied(writes: seq<Write>) { forall i | 0 <= i < |writes| :: writes[i].verdict.Applied? }

  /** Everything before the write that failed went well. */
  predicate StoppedAt(writes: seq<Write>, failed: bool) {
    if failed then |writes| > 0 && AllApplied(writes[..|writes| - 1]) else AllApplied(writes)
  }

  /** The patches among the writes that took effect, in order. */
  function Patches(writes: seq<Write>, landed: seq<bool>): seq<Item>
    requires |writes| == |landed|
  {
    if writes == [] then []
    else
      var last := |writes| - 1;
      Patches(writes[..last], landed[..last])
      + if writes[last].kind.AirtablePatch? && writes[last].item.Some? && landed[last] then [writes[last].item.value] else []
  }

  type Task = (WriteKind, Option<Item>)

  /** The writes for one ready item, in order: assign the page, then fill the row. */
  function TasksOf(it: Item): seq<Task> {
    (if it.page.isAssigned then [] else [(MetaAssign, Some(it))]) + (if it.airtable == map[] then [] else [(AirtablePatch, Some(it))])
  }

  function TasksFor(plan: seq<Item>): seq<Task> {
    if plan == [] then []
    else TasksFor(plan[..|plan| - 1]) + if plan[|plan| - 1].status.Ready? then TasksOf(plan[|plan| - 1]) else []
  }

  predicate NeedsEnv(plan: seq<Item>) { exists x :: x in plan && x.status.Ready? && x.env != [] }

  /** All writes a plan asks for: item by item, and the environment last, once. */
  function Intended(plan: seq<Item>): seq<Task> { TasksFor(plan) + if NeedsEnv(plan) then [(EnvAppend, None)] else [] }

  function Begun(writes: seq<Write>): seq<Task> { seq(|writes|, i requires 0 <= i < |writes| => (writes[i].kind, writes[i].item)) }

  lemma {:induction false} TasksGrow(plan: seq<Item>, i: nat)
    requires i <= |plan|
    ensures TasksFor(plan[..i]) <= TasksFor(plan)
  {
    if i == |plan| {
      assert plan[..i] == plan;
    } else {
      TasksGrow(plan[..|plan| - 1], i);
      assert plan[..|plan| - 1][..i] == plan[..i];
    }
  }

  lemma TasksNext(plan: seq<Item>, i: nat)
    requires i < |plan|
    ensures TasksFor(plan[..i + 1]) == TasksFor(plan[..i]) + if plan[i].status.Ready? then TasksOf(plan[i]) else []
    ensures NeedsEnv(plan[..i + 1]) <==> NeedsEnv(plan[..i]) || (plan[i].status.Ready? && plan[i].env != [])
    ensures TasksFor(plan[..i + 1]) <= TasksFor(plan)
  {
    assert plan[..i + 1][..i] == plan[..i] && plan[..i + 1][i] == plan[i];
    TasksGrow(plan, i + 1);
    if plan[i].status.Ready? && plan[i].env != [] {
      assert plan[i] in plan[..i + 1];
    }
    assert forall x :: x in plan[..i + 1] <==> x in plan[..i] || x == plan[i];
  }

  /** The patches that landed are among the writes begun; all of those, if every write was applied. */
  lemma {:induction false} PatchesAreBegun(writes: seq<Write>, landed: seq<bool>, x: Item)
    requires Covers(writes, landed)
    ensures x in Patches(writes, landed) ==> (AirtablePatch, Some(x)) in Begun(writes)
    ensures AllApplied(writes) && (AirtablePatch, Some(x)) in Begun(writes) ==> x in Patches(writes, landed)
  {
    if writes != [] {
      var last := |writes| - 1;
      PatchesAreBegun(writes[..last], landed[..last], x);
      assert Begun(writes) == Begun(writes[..last]) + [(writes[last].kind, writes[last].item)];
    }
  }

  lemma {:induction false} TasksOfReady(plan: seq<Item>, x: Item)
    ensures (AirtablePatch, Some(x)) in TasksFor(plan) <==> x in plan && x.status.Ready? && x.airtable != map[]
  {
    if plan != [] {
      var last := plan[|plan| - 1];
      TasksOfReady(plan[..|plan| - 1], x);
      assert x in plan <==> x in plan[..|plan| - 1] || x == last;
      assert (AirtablePatch, Some(x)) in TasksOf(last) <==> x == last && x.airtable != map[];
    }
  }

  lemma PatchesOfPlan(plan: seq<Item>, writes: seq<Write>, landed: seq<bool>)
    requires Covers(writes, landed) && Begun(writes) <= Intended(plan)
    ensures forall x | x in Patches(writes, landed) :: x in plan && x.status.Ready?
    ensures AllApplied(writes) && Begun(writes) == Intended(plan) ==>
              forall x | x in plan && x.status.Ready? && x.airtable != map[] :: x in Patches(writes, landed)
  {
    forall x: Item ensures x in Patches(writes, landed) ==> x in plan && x.status.Ready? {
      PatchesAreBegun(writes, landed, x);
      TasksOfReady(plan, x);
    }
    if AllApplied(writes) && Begun(writes) == Intended(plan) {
      forall x | x in plan && x.status.Ready? && x.airtable != map[] ensures x in Patches(writes, landed) {
        PatchesAreBegun(writes, landed, x);
        TasksOfReady(plan, x);
      }
    }
  }

  /** One write more, and what it makes of the accounts. */
  lemma OneWriteMore(was: seq<Rec>, writes: seq<Write>, landed: seq<bool>, x: Write, took: bool)
    requires Covers(writes, landed) && (x.verdict.Applied? ==> took) && (took ==> !x.verdict.NotApplied?)
    ensures Covers(writes + [x], landed + [took]) && Begun(writes + [x]) == Begun(writes) + [(x.kind, x.item)]
    ensures ApplyAll(was, Patches(writes + [x], landed + [took]))
            == if x.kind.AirtablePatch? && x.item.Some? && took then ApplyOne(ApplyAll(was, Patches(writes, landed)), x.item.value)
               else ApplyAll(was, Patches(writes, landed))
  {
    var before := Patches(writes, landed);
    assert (writes + [x])[..|writes|] == writes && (landed + [took])[..|landed|] == landed;
    assert before + [] == before;
    if x.item.Some? {
      assert (before + [x.item.value])[..|before|] == before;
    }
  }

  class Registry {
    var records: seq<Rec>

    /** One write and, when it raises, the read-only look afterwards; a verdict other than Unknown is true. */
    method Carry(kind: WriteKind, it: Option<Item>) returns (ok: bool, verdict: Verdict, ghost landed: bool)
      modifies this
      ensures ok ==> verdict.Applied?
      ensures (verdict.Applied? ==> landed) && (verdict.NotApplied? ==> !landed)
      ensures records == if kind.AirtablePatch? && it.Some? && landed then ApplyOne(old(records), it.value) else old(records)
    {
      var took, raised, answers := *, *, *;
      if took && kind.AirtablePatch? && it.Some? {
        records := ApplyOne(records, it.value);
      }
      landed := took;
      ok := took && !raised;
      verdict := if ok || (answers && took) then Applied else if answers then NotApplied else Unknown;
    }

    method Step(kind: WriteKind, it: Option<Item>, writes: seq<Write>, ghost landed: seq<bool>, ghost was: seq<Rec>)
      returns (failed: bool, writes': seq<Write>, ghost landed': seq<bool>)
      requires Covers(writes, landed) && records == ApplyAll(was, Patches(writes, landed))
      modifies this
      ensures |writes'| == |writes| + 1 && writes'[..|writes|] == writes && Begun(writes') == Begun(writes) + [(kind, it)]
      ensures AllApplied(writes) ==> StoppedAt(writes', failed)
      ensures Covers(writes', landed') && records == ApplyAll(was, Patches(writes', landed'))
    {
      var ok, verdict;
      ghost var took;
      ok, verdict, took := Carry(kind, it);
      writes', landed' := writes + [Write(kind, it, verdict)], landed + [took];
      failed := !ok;
      OneWriteMore(was, writes, landed, Write(kind, it, verdict), took);
    }

    /** The writes for one ready item. */
    method DoItem(it: Item, writes: seq<Write>, ghost landed: seq<bool>, ghost was: seq<Rec>)
      returns (failed: bool, writes': seq<Write>, ghost landed': seq<bool>)
      requires Covers(writes, landed) && AllApplied(writes) && records == ApplyAll(was, Patches(writes, landed))
      modifies this
      ensures Covers(writes', landed') && StoppedAt(writes', failed) && records == ApplyAll(was, Patches(writes', landed'))
      ensures Begun(writes') <= Begun(writes) + TasksOf(it) && (!failed ==> Begun(writes') == Begun(writes) + TasksOf(it))
    {
      failed, writes', landed' := false, writes, landed;
      assert Begun(writes) + TasksOf(it) == Begun(writes) + (if it.page.isAssigned then [] else [(MetaAssign, Some(it))])
                                            + (if it.airtable == map[] then [] else [(AirtablePatch, Some(it))]);
      if !it.page.isAssigned {
        failed, writes', landed' := Step(MetaAssign, Some(it), writes, landed, was);
      }
      if !failed && it.airtable != map[] {
        failed, writes', landed' := Step(AirtablePatch, Some(it), writes', landed', was);
      }
    }

    /** The ready items, in order; `env`: whether one of them lacks a variable. */
    method DoItems(plan: seq<Item>) returns (failed: bool, env: bool, writes: seq<Write>, ghost landed: seq<bool>)
      modifies this
      ensures Covers(writes, landed) && StoppedAt(writes, failed) && records == ApplyAll(old(records), Patches(writes, landed))
      ensures Begun(writes) <= TasksFor(plan) && (!failed ==> Begun(writes) == TasksFor(plan) && env == NeedsEnv(plan))
    {
      failed, env, writes, landed := false, false, [], [];
      var i := 0;
      while i < |plan|
        invariant 0 <= i <= |plan| && Covers(writes, landed) && AllApplied(writes)
        invariant records == ApplyAll(old(records), Patches(writes, landed))
        invariant Begun(writes) == TasksFor(plan[..i]) && env == NeedsEnv(plan[..i])
      {
        TasksNext(plan, i);
        if plan[i].status.Ready? {
          env := env || plan[i].env != [];
          failed, writes, landed := DoItem(plan[i], writes, landed, old(records));
          if failed { return; }
        }
        i := i + 1;
      }
      failed := false;
      assert plan[..i] == plan;
    }

    /** Whatever fails, and wherever: the registry is the old one with the patches that landed; all of
        those are of ready items; every write that may have landed is reported as applied or unknown; and
        the writes begun are the intended ones in their order, all of them unless one failed. */
    method ApplyPlan(plan: seq<Item>) returns (failed: bool, writes: seq<Write>, ghost landed: seq<bool>)
      modifies this
      ensures Covers(writes, landed) && StoppedAt(writes, failed) && records == ApplyAll(old(records), Patches(writes, landed))
      ensures forall x | x in Patches(writes, landed) :: x in plan && x.status.Ready?
      ensures !failed ==> forall x | x in plan && x.status.Ready? && x.airtable != map[] :: x in Patches(writes, landed)
      ensures Begun(writes) <= Intended(plan) && (!failed ==> Begun(writes) == Intended(plan))
    {
      var env;
      failed, env, writes, landed := DoItems(plan);
      if !failed && env {
        failed, writes, landed := Step(EnvAppend, None, writes, landed, old(records));
      }
      PatchesOfPlan(plan, writes, landed);
    }
  }
}
