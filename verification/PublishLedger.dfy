/** The standalone publish ledger (modules/common/publish_ledger.py) and the scheduled publisher that
    runs on it (modules/common/aijomoojin_scheduled_publish_job.py).

    First what a key tells apart and what it does not; then the ledger, a table updated in place under
    a fixed table of transitions; and at last any number of runs of the publisher over one ledger, each
    of which may stop anywhere. */
module PublishLedger {
  import opened Wrappers

  type Key = string

  datatype State = Reserved | Publishing | Published | Failed | Unknown | ReceiptPending | Dead

  datatype Row = Row(state: State, creationId: string, postId: string, lastError: string)
  type Rows = map<Key, Row>

  // ── keys ───────────────────────────────────────────────────────────────────

  predicate Blank(c: char) { c in " \t\r\n" }
  function Lower(c: char): char { if 'A' <= c <= 'Z' then c - 'A' + 'a' else c }

  function StripLeft(s: string): string { if s != "" && Blank(s[0]) then StripLeft(s[1..]) else s }
  function StripRight(s: string): string { if s != "" && Blank(s[|s| - 1]) then StripRight(s[..|s| - 1]) else s }
  function Lowered(s: string): string { seq(|s|, i requires 0 <= i < |s| => Lower(s[i])) }
  function Tidy(s: string): string { Lowered(StripRight(StripLeft(s))) }

  predicate Blanks(s: string) { forall c | c in s :: Blank(c) }

  lemma {:induction false} LeftIsStripped(s: string) returns (l: string)
    ensures s == l + StripLeft(s) && Blanks(l) && (StripLeft(s) != "" ==> !Blank(StripLeft(s)[0]))
  {
    if s != "" && Blank(s[0]) {
      l := LeftIsStripped(s[1..]);
      l := [s[0]] + l;
    } else {
      l := "";
    }
  }

  lemma {:induction false} RightIsStripped(s: string) returns (n: nat)
    ensures n <= |s| && StripRight(s) == s[..n] && (forall i | n <= i < |s| :: Blank(s[i])) && (n > 0 ==> !Blank(s[n - 1]))
  {
    n := |s|;
    if s != "" && Blank(s[|s| - 1]) {
      n := RightIsStripped(s[..|s| - 1]);
      assert s[..|s| - 1][..n] == s[..n];
    } else {
      assert s[..n] == s;
    }
  }

  /** What counts of a part of a key: everything between the blanks around it, without regard to case. */
  lemma TidyIsTheMiddle(s: string) returns (l: string, m: string, r: string)
    ensures s == l + m + r && Blanks(l) && Blanks(r)
    ensures m != "" ==> !Blank(m[0]) && !Blank(m[|m| - 1])
    ensures |Tidy(s)| == |m| && forall i | 0 <= i < |m| :: Tidy(s)[i] == if 'A' <= m[i] <= 'Z' then m[i] - 'A' + 'a' else m[i]
  {
    l := LeftIsStripped(s);
    var t := StripLeft(s);
    var n := RightIsStripped(t);
    m, r := t[..n], t[n..];
    assert t == m + r;
  }

  function Joined(c: string, a: string, h: string): Key { c + "|" + a + "|" + h }

  function MakeKey(content: string, account: string, channel: string): Option<Key> {
    var c, a, h := Tidy(content), Tidy(account), Tidy(channel);
    if c == "" || a == "" || h == "" then None else Some(Joined(c, a, h))
  }

  /** Where the first bar of a string is, the text before it and after it are settled. */
  lemma CutAtBar(a: string, b: string, x: string, y: string)
    requires '|' !in a && '|' !in b && a + "|" + x == b + "|" + y
    ensures a == b && x == y
  {
    var s, t := a + "|" + x, b + "|" + y;
    assert s[|a|] == '|' && t[|b|] == '|';
    assert (forall i | 0 <= i < |a| :: s[i] == a[i] && a[i] in a) && forall i | 0 <= i < |b| :: t[i] == b[i] && b[i] in b;
    assert s[..|a|] == a && t[..|b|] == b;
    assert s[|a| + 1..] == x && t[|b| + 1..] == y;
  }

  lemma JoinIsInjective(c: string, a: string, h: string, c': string, a': string, h': string)
    requires '|' !in c && '|' !in a && '|' !in c' && '|' !in a' && Joined(c, a, h) == Joined(c', a', h')
    ensures c == c' && a == a' && h == h'
  {
    assert Joined(c, a, h) == c + "|" + (a + "|" + h) && Joined(c', a', h') == c' + "|" + (a' + "|" + h');
    CutAtBar(c, c', a + "|" + h, a' + "|" + h');
    CutAtBar(a, a', h, h');
  }

  lemma SameTailSameHead(c: string, c': string, tail: string)
    requires c + tail == c' + tail
    ensures c == c'
  {
    assert (c + tail)[..|c + tail| - |tail|] == c && (c' + tail)[..|c' + tail| - |tail|] == c';
  }

  /** For one account and channel, two contents share a key exactly when they read the same once trimmed
      and lowered. */
  lemma KeysTellContentApart(c: string, c': string, a: string, h: string)
    requires MakeKey(c, a, h).Some? && MakeKey(c', a, h).Some?
    ensures MakeKey(c, a, h) == MakeKey(c', a, h) <==> Tidy(c) == Tidy(c')
  {
    var tail := "|" + Tidy(a) + "|" + Tidy(h);
    assert MakeKey(c, a, h).value == Tidy(c) + tail && MakeKey(c', a, h).value == Tidy(c') + tail;
    if MakeKey(c, a, h) == MakeKey(c', a, h) {
      SameTailSameHead(Tidy(c), Tidy(c'), tail);
    }
  }

  /** Across accounts it takes parts without a bar. */
  lemma KeysTellTriplesApart(c: string, a: string, h: string, c': string, a': string, h': string)
    requires MakeKey(c, a, h).Some? && MakeKey(c', a', h').Some?
    requires '|' !in Tidy(c) && '|' !in Tidy(a) && '|' !in Tidy(c') && '|' !in Tidy(a')
    ensures MakeKey(c, a, h) == MakeKey(c', a', h') <==> Tidy(c) == Tidy(c') && Tidy(a) == Tidy(a') && Tidy(h) == Tidy(h')
  {
    if MakeKey(c, a, h) == MakeKey(c', a', h') {
      JoinIsInjective(Tidy(c), Tidy(a), Tidy(h), Tidy(c'), Tidy(a'), Tidy(h'));
    }
  }

  /** The second pair is the first with the boundary moved to a later bar. */
  predicate Shifted(c: string, a: string, c': string, a': string) {
    |c| < |c'| && c'[..|c|] == c && c'[|c|] == '|' && a == c'[|c| + 1..] + "|" + a'
  }

  lemma ShiftedJoins(c: string, a: string, c': string, a': string)
    requires Shifted(c, a, c', a')
    ensures c + "|" + a == c' + "|" + a'
  {
    assert c' == c + "|" + c'[|c| + 1..];
  }

  lemma JoinsShift(c: string, a: string, c': string, a': string)
    requires c + "|" + a == c' + "|" + a' && |c| < |c'|
    ensures Shifted(c, a, c', a')
  {
    var s, t := c + "|" + a, c' + "|" + a';
    assert s[..|c|] == c && t[..|c|] == c'[..|c|] && s[|c|] == '|' && t[|c|] == c'[|c|];
    assert s[|c| + 1..] == a && t[|c| + 1..] == c'[|c| + 1..] + "|" + a';
  }

  /** Across accounts of one channel, keys are equal exactly when both parts are, or when one pair is the
      other with the boundary moved to another bar. */
  lemma KeysCollideExactly(c: string, a: string, c': string, a': string, h: string)
    requires MakeKey(c, a, h).Some? && MakeKey(c', a', h).Some?
    ensures MakeKey(c, a, h) == MakeKey(c', a', h) <==>
              || (Tidy(c) == Tidy(c') && Tidy(a) == Tidy(a'))
              || Shifted(Tidy(c), Tidy(a), Tidy(c'), Tidy(a')) || Shifted(Tidy(c'), Tidy(a'), Tidy(c), Tidy(a))
  {
    var x, y, tail := Tidy(c) + "|" + Tidy(a), Tidy(c') + "|" + Tidy(a'), "|" + Tidy(h);
    assert MakeKey(c, a, h).value == x + tail && MakeKey(c', a', h).value == y + tail;
    if x + tail == y + tail {
      SameTailSameHead(x, y, tail);
      PairsShift(Tidy(c), Tidy(a), Tidy(c'), Tidy(a'));
    }
    if Shifted(Tidy(c), Tidy(a), Tidy(c'), Tidy(a')) { ShiftedJoins(Tidy(c), Tidy(a), Tidy(c'), Tidy(a')); }
    if Shifted(Tidy(c'), Tidy(a'), Tidy(c), Tidy(a)) { ShiftedJoins(Tidy(c'), Tidy(a'), Tidy(c), Tidy(a)); }
  }

  lemma PairsShift(c: string, a: string, c': string, a': string)
    requires c + "|" + a == c' + "|" + a'
    ensures (c == c' && a == a') || Shifted(c, a, c', a') || Shifted(c', a', c, a)
  {
    var s, t := c + "|" + a, c' + "|" + a';
    if |c| < |c'| { JoinsShift(c, a, c', a'); }
    else if |c'| < |c| { JoinsShift(c', a', c, a); }
    else {
      assert s[..|c|] == c && t[..|c'|] == c' && s[|c| + 1..] == a && t[|c'| + 1..] == a';
    }
  }

  lemma Trimmed(s: string, t: string)
    requires s != "" && !Blank(s[0]) && !Blank(s[|s| - 1]) && Lowered(s) == t
    ensures Tidy(s) == t
  {
  }

  /** Both provisos are needed: a bar can move the boundary, so different triples share a key; and two
      record ids that differ only in case are one key, so the second is turned away as a duplicate. */
  lemma KeysCollide()
    ensures MakeKey("x|y", "z", "i").Some? && MakeKey("x|y", "z", "i") == MakeKey("x", "y|z", "i")
    ensures MakeKey("recA", "z", "i").Some? && MakeKey("recA", "z", "i") == MakeKey("reca", "z", "i")
  {
    Trimmed("x|y", "x|y");
    Trimmed("x", "x");
    Trimmed("z", "z");
    Trimmed("y|z", "y|z");
    Trimmed("i", "i");
    Trimmed("recA", "reca");
    Trimmed("reca", "reca");
    assert "x|y" + "|" + "z" == "x" + "|" + "y|z";
  }

  // ── the table ──────────────────────────────────────────────────────────────

  /** _ALLOWED_TRANSITIONS. */
  predicate Allowed(from: State, to: State) {
    match from
    case Reserved => to.Publishing?
    case Publishing => to.Published? || to.Failed? || to.Unknown?
    case Published => to.ReceiptPending?
    case ReceiptPending => to.Published?
    case Failed => to.Dead?
    case _ => false
  }

  /** The same as a set of pairs. */
  const TRANSITIONS: set<(State, State)> := {
    (Reserved, Publishing), (Publishing, Published), (Publishing, Failed), (Publishing, Unknown),
    (Published, ReceiptPending), (ReceiptPending, Published), (Failed, Dead)}

  predicate MayMove(rows: Rows, k: Key, s: State) { k in rows && Allowed(rows[k].state, s) }

  /** A blank id or error leaves what is there. */
  function Keep(new': string, old': string): string { if new' == "" then old' else new' }

  function Moved(rows: Rows, k: Key, s: State, creationId: string, postId: string, error: string): Rows {
    if MayMove(rows, k, s)
    then rows[k := Row(s, Keep(creationId, rows[k].creationId), Keep(postId, rows[k].postId), Keep(error, rows[k].lastError))]
    else rows
  }

  function Held(rows: Rows, k: Key): Rows { if k in rows then rows else rows[k := Row(Reserved, "", "", "")] }

  class Ledger {
    var rows: Rows

    constructor () ensures rows == map[] { rows := map[]; }

    /** The key, or None for a missing part or a key that exists already, in whatever state. */
    method Reserve(content: string, account: string, channel: string) returns (key: Option<Key>)
      modifies this
      ensures var k := MakeKey(content, account, channel);
              && (key.Some? <==> k.Some? && k.value !in old(rows))
              && (key.Some? ==> key == k && rows == Held(old(rows), key.value) == old(rows)[key.value := Row(Reserved, "", "", "")])
              && (key.None? ==> rows == old(rows))
    {
      key := MakeKey(content, account, channel);
      if key.Some? {
        if key.value in rows {
          return None;
        }
        rows := rows[key.value := Row(Reserved, "", "", "")];
      }
    }

    method Transition(k: Key, s: State, creationId: string, postId: string, error: string) returns (ok: bool)
      modifies this
      ensures ok == MayMove(old(rows), k, s) && rows == Moved(old(rows), k, s, creationId, postId, error)
      ensures ok <==> k in old(rows) && (old(rows)[k].state, s) in TRANSITIONS
      ensures ok ==> rows == old(rows)[k := rows[k]] && rows[k].state == s
                     && rows[k].creationId == (if creationId == "" then old(rows)[k].creationId else creationId)
                     && rows[k].postId == (if postId == "" then old(rows)[k].postId else postId)
                     && rows[k].lastError == (if error == "" then old(rows)[k].lastError else error)
      ensures !ok ==> rows == old(rows)
    {
      ok := k in rows && Allowed(rows[k].state, s);
      if ok {
        var r := rows[k];
        rows := rows[k := Row(s, Keep(creationId, r.creationId), Keep(postId, r.postId), Keep(error, r.lastError))];
      }
    }
  }

  // ── no way back ────────────────────────────────────────────────────────────

  datatype Op = Hold(k: Key) | Move(k: Key, s: State, creationId: string, postId: string, error: string)

  function Run(rows: Rows, op: Op): Rows {
    match op
    case Hold(k) => Held(rows, k)
    case Move(k, s, c, p, e) => Moved(rows, k, s, c, p, e)
  }

  function RunAll(rows: Rows, ops: seq<Op>): Rows {
    if ops == [] then rows else Run(RunAll(rows, ops[..|ops| - 1]), ops[|ops| - 1])
  }

  /** How often `k` enters PUBLISHING along the way. */
  function Entries(rows: Rows, ops: seq<Op>, k: Key): nat {
    if ops == [] then 0
    else
      var before, op := RunAll(rows, ops[..|ops| - 1]), ops[|ops| - 1];
      Entries(rows, ops[..|ops| - 1], k) + if op.Move? && op.k == k && op.s.Publishing? && MayMove(before, k, Publishing) then 1 else 0
  }

  predicate Fresh(rows: Rows, k: Key) { k in rows ==> rows[k].state.Reserved? }

  /** Whoever uses the ledger and however: a key enters PUBLISHING at most once, ever; and not at all if
      it has ever been there. */
  lemma {:induction false} PublishingIsEnteredOnce(rows: Rows, ops: seq<Op>, k: Key)
    ensures Entries(rows, ops, k) <= if Fresh(rows, k) then 1 else 0
    ensures !Fresh(rows, k) || Entries(rows, ops, k) == 1 ==> !Fresh(RunAll(rows, ops), k)
    ensures Fresh(rows, k) && Entries(rows, ops, k) == 0 ==> Fresh(RunAll(rows, ops), k)
  {
    if ops != [] {
      PublishingIsEnteredOnce(rows, ops[..|ops| - 1], k);
    }
  }

  // ── the scheduled publisher ────────────────────────────────────────────────

  datatype Outcome = Succeeded(mediaId: string) | Refused(error: string) | Unclear(creationId: string)

  datatype Pc =
    | Owning                      // the key is reserved, the post not claimed
    | Claimed
    | Calling                     // PUBLISHING is written, publish_single is next
    | Called(o: Outcome)
    | Recording(mediaId: string)  // PUBLISHED and the id are written
    | Unrecorded(mediaId: string) // Airtable refused
    | Over

  datatype Runner = Runner(key: Key, pc: Pc)

  /** `wrote`: attempts to put a media id into Airtable, with the id the ledger held at that moment. */
  datatype World = World(rows: Rows, runners: map<nat, Runner>, calls: multiset<Key>, wrote: set<(string, string)>)

  datatype Turn = ClaimPost(ok: bool) | StartPublishing | Publish(o: Outcome) | Settle | Write(ok: bool) | Defer | Die

  datatype Action =
    | Start(p: nat, post: string, account: string)   // everything up to and including reserve
    | Work(p: nat, turn: Turn)
    | Elsewhere(op: Op)                              // other users of the ledger; they write no post id

  predicate CanTurn(pc: Pc, turn: Turn) {
    match turn
    case ClaimPost(_) => pc.Owning?
    case StartPublishing => pc.Claimed?
    case Publish(_) => pc.Calling?
    case Settle => pc.Called?
    case Write(_) => pc.Recording?
    case Defer => pc.Unrecorded?
    case Die => !pc.Over?
  }

  function At(w: World, p: nat, pc: Pc): World
    requires p in w.runners
  {
    w.(runners := w.runners[p := w.runners[p].(pc := pc)])
  }

  /** A transition that is refused raises, and ends the run. */
  function Shift(w: World, p: nat, s: State, creationId: string, postId: string, error: string, pc: Pc): World
    requires p in w.runners
  {
    var k := w.runners[p].key;
    At(w, p, if MayMove(w.rows, k, s) then pc else Over).(rows := Moved(w.rows, k, s, creationId, postId, error))
  }

  function Worked(w: World, p: nat, turn: Turn): World
    requires p in w.runners && CanTurn(w.runners[p].pc, turn)
  {
    var x := w.runners[p];
    match turn
    case ClaimPost(ok) => At(w, p, if ok then Claimed else Over)
    case StartPublishing => Shift(w, p, Publishing, "", "", "", Calling)
    case Publish(o) => At(w, p, Called(o)).(calls := w.calls + multiset{x.key})
    case Settle =>
      (match x.pc.o
       case Unclear(c) => Shift(w, p, Unknown, c, "", "", Over)
       case Refused(e) => Shift(w, p, Failed, "", "", e, Over)
       case Succeeded(m) => Shift(w, p, Published, "", m, "", Recording(m)))
    case Write(ok) =>
      At(w, p, if ok then Over else Unrecorded(x.pc.mediaId))
      .(wrote := w.wrote + {(x.pc.mediaId, if x.key in w.rows then w.rows[x.key].postId else "")})
    case Defer => Shift(w, p, ReceiptPending, "", "", "receipt", Over)
    case Die => At(w, p, Over)
  }

  predicate Enabled(w: World, a: Action) {
    match a
    case Start(p, _, _) => p !in w.runners
    case Work(p, turn) => p in w.runners && CanTurn(w.runners[p].pc, turn)
    case Elsewhere(op) => op.Move? ==> op.postId == ""
  }

  function Exec(w: World, a: Action): World
    requires Enabled(w, a)
  {
    match a
    case Start(p, post, account) =>
      var k := MakeKey(post, account, "instagram");
      if k.None? || k.value in w.rows then w
      else w.(rows := Held(w.rows, k.value), runners := w.runners[p := Runner(k.value, Owning)])
    case Work(p, turn) => Worked(w, p, turn)
    case Elsewhere(op) => w.(rows := Run(w.rows, op))
  }

  ghost predicate Leads(w: World, acts: seq<Action>, w': World)
    decreases |acts|
  {
    if acts == [] then w' == w
    else Enabled(w, acts[0]) && Leads(Exec(w, acts[0]), acts[1..], w')
  }

  ghost predicate Reachable(w: World) { exists acts :: Leads(World(map[], map[], multiset{}, {}), acts, w) }

  predicate RunnerOk(w: World, x: Runner) {
    && x.key in w.rows
    && (x.pc.Calling? ==> !w.rows[x.key].state.Reserved? && w.calls[x.key] == 0)
    && (x.pc.Called? || x.pc.Recording? || x.pc.Unrecorded? ==> !w.rows[x.key].state.Reserved?)
    && (x.pc.Recording? && x.pc.mediaId != "" ==> w.rows[x.key].postId == x.pc.mediaId)
  }

  predicate CallsOk(w: World, k: Key) { w.calls[k] <= 1 && (w.calls[k] > 0 ==> k in w.rows && !w.rows[k].state.Reserved?) }

  ghost predicate Inv(w: World) {
    && (forall p :: p in w.runners ==> RunnerOk(w, w.runners[p]))
    && (forall p, q :: p in w.runners && q in w.runners && p != q ==> w.runners[p].key != w.runners[q].key)
    && (forall k :: CallsOk(w, k))
    && (forall x :: x in w.wrote ==> x.0 == "" || x.1 == x.0)
  }

  /** What a transition does to the row of `j`. */
  lemma MovedFacts(rows: Rows, k: Key, s: State, creationId: string, postId: string, error: string, j: Key)
    requires j in rows
    ensures var rows' := Moved(rows, k, s, creationId, postId, error);
            && rows'.Keys == rows.Keys
            && (!rows[j].state.Reserved? ==> !rows'[j].state.Reserved?)
            && (j != k || postId == "" ==> rows'[j].postId == rows[j].postId)
            && (j == k && MayMove(rows, k, s) ==> rows'[j].state == s && (postId != "" ==> rows'[j].postId == postId))
  {
  }

  lemma OwnTurn(w: World, p: nat, turn: Turn)
    requires Inv(w) && Enabled(w, Work(p, turn))
    ensures RunnerOk(Worked(w, p, turn), Worked(w, p, turn).runners[p])
  {
    assert RunnerOk(w, w.runners[p]) && CallsOk(w, w.runners[p].key);
  }

  /** No step hurts a runner that does not take it: it works on another key, or moves the row on. */
  lemma OthersStep(w: World, a: Action, p: nat)
    requires Inv(w) && Enabled(w, a) && p in w.runners && (a.Work? ==> a.p != p)
    ensures p in Exec(w, a).runners && RunnerOk(Exec(w, a), w.runners[p])
  {
    var x := w.runners[p];
    assert RunnerOk(w, x);
    if a.Elsewhere? && a.op.Move? {
      MovedFacts(w.rows, a.op.k, a.op.s, a.op.creationId, a.op.postId, a.op.error, x.key);
    } else if a.Work? {
      assert w.runners[a.p].key != x.key;
    }
  }

  lemma RunnerStep(w: World, a: Action, p: nat)
    requires Inv(w) && Enabled(w, a) && p in Exec(w, a).runners
    ensures RunnerOk(Exec(w, a), Exec(w, a).runners[p])
  {
    if a.Work? && a.p == p { OwnTurn(w, p, a.turn); }
    else if p in w.runners { OthersStep(w, a, p); }
  }

  lemma CallsStep(w: World, a: Action, k: Key)
    requires Inv(w) && Enabled(w, a)
    ensures CallsOk(Exec(w, a), k)
  {
    assert CallsOk(w, k);
    if a.Work? {
      assert RunnerOk(w, w.runners[a.p]);
    }
  }

  lemma WroteStep(w: World, a: Action)
    requires Inv(w) && Enabled(w, a)
    ensures forall x :: x in Exec(w, a).wrote ==> x.0 == "" || x.1 == x.0
  {
    if a.Work? {
      assert RunnerOk(w, w.runners[a.p]);
    }
  }

  lemma InvStep(w: World, a: Action)
    requires Inv(w) && Enabled(w, a)
    ensures Inv(Exec(w, a))
  {
    var w' := Exec(w, a);
    forall p | p in w'.runners ensures RunnerOk(w', w'.runners[p]) {
      RunnerStep(w, a, p);
    }
    forall k ensures CallsOk(w', k) {
      CallsStep(w, a, k);
    }
    WroteStep(w, a);
    assert forall p :: p in w.runners ==> w.runners[p].key in w.rows;
  }

  lemma {:induction false} InvRun(w: World, acts: seq<Action>, w': World)
    requires Inv(w) && Leads(w, acts, w')
    ensures Inv(w')
    decreases |acts|
  {
    if acts != [] {
      InvStep(w, acts[0]);
      InvRun(Exec(w, acts[0]), acts[1..], w');
    }
  }

  /** However many runs there are, and wherever they stop: the publish function is called at most once for
      a key, and an Instagram id is in the ledger before any attempt to write it to Airtable. */
  lemma PublishedOnceAndOnRecord(w: World, k: Key)
    requires Reachable(w)
    ensures w.calls[k] <= 1
    ensures w.calls[k] == 1 ==> k in w.rows && !w.rows[k].state.Reserved?
    ensures forall x | x in w.wrote && x.0 != "" :: x.1 == x.0
  {
    var acts :| Leads(World(map[], map[], multiset{}, {}), acts, w);
    InvRun(World(map[], map[], multiset{}, {}), acts, w);
    assert CallsOk(w, k);
  }

  // ── undisturbed runs ───────────────────────────────────────────────────────

  /** The worlds a run passes through, step by step. */
  ghost predicate Path(ws: seq<World>, acts: seq<Action>) {
    |ws| == |acts| + 1 && forall n | 0 <= n < |acts| :: Enabled(ws[n], acts[n]) && ws[n + 1] == Exec(ws[n], acts[n])
  }

  lemma {:induction false} PathLeads(ws: seq<World>, acts: seq<Action>)
    requires Path(ws, acts)
    ensures Leads(ws[0], acts, ws[|ws| - 1])
    decreases |acts|
  {
    if acts != [] {
      assert ws[1..][0] == ws[1] == Exec(ws[0], acts[0]);
      assert forall n | 0 <= n < |acts| - 1 :: acts[1..][n] == acts[n + 1] && ws[1..][n] == ws[n + 1];
      PathLeads(ws[1..], acts[1..]);
    }
  }

  lemma Extends(ws: seq<World>, acts: seq<Action>, a: Action) returns (ws': seq<World>, acts': seq<Action>)
    requires Path(ws, acts) && Enabled(ws[|ws| - 1], a)
    ensures acts' == acts + [a] && ws' == ws + [Exec(ws[|ws| - 1], a)] && Path(ws', acts')
  {
    ws', acts' := ws + [Exec(ws[|ws| - 1], a)], acts + [a];
  }

  /** What a run leaves in the ledger: the answer of the publish function, and whether Airtable took it. */
  function RowLeft(o: Outcome, writes: bool): Row {
    match o
    case Unclear(c) => Row(Unknown, c, "", "")
    case Refused(e) => Row(Failed, "", "", e)
    case Succeeded(m) => if writes then Row(Published, "", m, "") else Row(ReceiptPending, "", m, "receipt")
  }

  /** A run for a new key up to the answer of the publish function. */
  lemma RunPublishes(w: World, p: nat, post: string, account: string, o: Outcome) returns (ws: seq<World>, acts: seq<Action>)
    requires p !in w.runners && MakeKey(post, account, "instagram").Some? && MakeKey(post, account, "instagram").value !in w.rows
    ensures Path(ws, acts) && ws[0] == w
    ensures var k := MakeKey(post, account, "instagram").value;
            ws[|ws| - 1] == w.(rows := w.rows[k := Row(Publishing, "", "", "")], runners := w.runners[p := Runner(k, Called(o))],
                               calls := w.calls + multiset{k})
  {
    var k := MakeKey(post, account, "instagram").value;
    ws, acts := RunClaims(w, p, post, account);
    ws, acts := Extends(ws, acts, Work(p, StartPublishing));
    assert ws[|ws| - 1].runners[p] == Runner(k, Calling) && ws[|ws| - 1].rows == w.rows[k := Row(Publishing, "", "", "")];
    ws, acts := Extends(ws, acts, Work(p, Publish(o)));
    assert ws[|ws| - 1].runners == w.runners[p := Runner(k, Called(o))];
  }

  lemma RunClaims(w: World, p: nat, post: string, account: string) returns (ws: seq<World>, acts: seq<Action>)
    requires p !in w.runners && MakeKey(post, account, "instagram").Some? && MakeKey(post, account, "instagram").value !in w.rows
    ensures Path(ws, acts) && ws[0] == w
    ensures var k := MakeKey(post, account, "instagram").value;
            ws[|ws| - 1] == w.(rows := w.rows[k := Row(Reserved, "", "", "")], runners := w.runners[p := Runner(k, Claimed)])
  {
    var k := MakeKey(post, account, "instagram").value;
    ws, acts := Extends([w], [], Start(p, post, account));
    assert ws[|ws| - 1].runners[p] == Runner(k, Owning);
    ws, acts := Extends(ws, acts, Work(p, ClaimPost(true)));
    assert ws[|ws| - 1].runners == w.runners[p := Runner(k, Claimed)];
  }

  /** The publish function gave an id: it is recorded here first, then in Airtable, or left pending. */
  lemma SuccessSettles(ws: seq<World>, acts: seq<Action>, p: nat, k: Key, m: string, writes: bool) returns (ws': seq<World>, acts': seq<Action>)
    requires Path(ws, acts) && var w := ws[|ws| - 1];
             p in w.runners && w.runners[p] == Runner(k, Called(Succeeded(m))) && k in w.rows && w.rows[k] == Row(Publishing, "", "", "")
    ensures Path(ws', acts') && ws'[0] == ws[0]
    ensures var w, w' := ws[|ws| - 1], ws'[|ws'| - 1];
            w'.calls == w.calls && w'.rows == w.rows[k := RowLeft(Succeeded(m), writes)] && w'.wrote == w.wrote + {(m, m)}
  {
    ws', acts' := Extends(ws, acts, Work(p, Settle));
    assert ws'[|ws'| - 1].runners[p] == Runner(k, Recording(m)) && ws'[|ws'| - 1].rows[k] == Row(Published, "", m, "");
    ws', acts' := Extends(ws', acts', Work(p, Write(writes)));
    if !writes {
      assert ws'[|ws'| - 1].runners[p] == Runner(k, Unrecorded(m));
      ws', acts' := Extends(ws', acts', Work(p, Defer));
    }
  }

  /** An undisturbed run publishes once and leaves in the ledger what came of it: the media id, the error,
      or the container whose fate nobody knows; and a success that Airtable did not take as pending. */
  lemma ARunSettles(w: World, p: nat, post: string, account: string, o: Outcome, writes: bool) returns (ws: seq<World>, acts: seq<Action>)
    requires p !in w.runners && MakeKey(post, account, "instagram").Some? && MakeKey(post, account, "instagram").value !in w.rows
    ensures Path(ws, acts) && ws[0] == w && Leads(w, acts, ws[|ws| - 1])
    ensures var k, w' := MakeKey(post, account, "instagram").value, ws[|ws| - 1];
            && w'.calls == w.calls + multiset{k} && w'.rows == w.rows[k := RowLeft(o, writes)]
            && w'.wrote == if o.Succeeded? then w.wrote + {(o.mediaId, o.mediaId)} else w.wrote
  {
    var k := MakeKey(post, account, "instagram").value;
    ws, acts := RunPublishes(w, p, post, account, o);
    if o.Succeeded? {
      ws, acts := SuccessSettles(ws, acts, p, k, o.mediaId, writes);
    } else {
      ws, acts := Extends(ws, acts, Work(p, Settle));
    }
    PathLeads(ws, acts);
  }

  /** A run that reserved its key but cannot claim the post stops there, and the key stays reserved. */
  lemma AnUnclaimedRunStops(w: World, p: nat)
    requires p in w.runners && w.runners[p].pc.Owning?
    ensures Enabled(w, Work(p, ClaimPost(false)))
    ensures Exec(w, Work(p, ClaimPost(false))) == w.(runners := w.runners[p := w.runners[p].(pc := Over)])
  {
  }

  /** A key that is there, in whatever state, stops every later run before it does anything. */
  lemma ASecondRunStops(w: World, p: nat, post: string, account: string)
    requires p !in w.runners && MakeKey(post, account, "instagram").Some? && MakeKey(post, account, "instagram").value in w.rows
    ensures Enabled(w, Start(p, post, account)) && Exec(w, Start(p, post, account)) == w
  {
  }
}
