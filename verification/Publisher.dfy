/** Publishing one post to Instagram, launcher/main.py: create a container, wait until it is
    FINISHED, publish it; and the carousel, which does so for every child and then for the parent.

    The Graph API and the ledger callback are the outside world: each call is logged together with
    its answer, and the answer is arbitrary.  The clock is monotonic, in milliseconds. */
module Publisher {
  import opened Wrappers

  datatype Item =
    | Photo(url: string, caption: string)
    | Child(url: string)
    | Parent(children: seq<string>, caption: string)

  /** What a status read brought back; NoAnswer is an exception or an HTTP error. */
  datatype Progress = Finished | Errored | Expired | Absent | InProgress | NoAnswer

  /** The body of an answer to media_publish: a media id (perhaps empty), no id, or JSON that is not an
      object (reading the id then raises a TypeError that nobody handles). */
  datatype Body = MediaId(id: string) | NoId | NotAnObject

  datatype Answer = ConnectTimeout | Broken | Response(status: int, body: Body)

  datatype Call =
    | Create(item: Item, id: Option<string>)          // None: an exception, an HTTP error or no id
    | Look(container: string, progress: Progress, at: nat)   // at: when the answer was there
    | Sleep(ms: nat)
    | Publish(container: string, answer: Answer)
    | Confide(container: string, accepted: bool)      // on_parent_created

  datatype Result =
    | Published(mediaId: string)
    | Failed(error: string, unknown: bool)
    | Raised

  const ATTEMPTS := 3
  const DEADLINE := 30_000
  const INTERVAL := 3_000
  const CAROUSEL_MIN := 2
  const CAROUSEL_MAX := 4
  const DIGITS := "1234"

  // ── what the phases may leave in the log ───────────────────────────────────

  /** Up to three attempts, the first success ends them. */
  predicate CreatedBy(t: seq<Call>, item: Item, id: Option<string>) {
    && 1 <= |t| <= 3
    && (forall i | 0 <= i < |t| :: t[i].Create? && t[i].item == item)
    && (forall i | 0 <= i < |t| - 1 :: t[i].id.None?)
    && t[|t| - 1].id == id
    && (id.None? ==> |t| == 3)
  }

  predicate Waiting(p: Progress) { p.InProgress? || p.NoAnswer? }

  /** When a wait began and ended. */
  datatype Span = Span(from: nat, until: nat) {
    function Deadline(): nat { from + DEADLINE }
  }

  /** A look, a sleep, a look, a sleep: it goes on only after an answer that decides nothing, and while
      there is time left, and sleeps the interval, or what is left of the time. */
  predicate Looking(t: seq<Call>, container: string, span: Span) {
    && (|t| > 0 ==> t[0].Look?)
    && (forall i | 0 <= i < |t| :: if t[i].Look? then t[i].container == container && span.from <= t[i].at <= span.until else t[i].Sleep?)
    && (forall i | 0 <= i < |t| - 1 :: t[i].Look? <==> t[i + 1].Sleep?)
    && (forall i | 0 <= i < |t| - 1 && t[i].Look? :: Goes(t[i], t[i + 1], span.Deadline()))
    && (forall i | 0 <= i < |t| - 2 && t[i].Look? :: OnTime(t[i], t[i + 1], t[i + 2], span.Deadline()))
  }

  predicate Goes(look: Call, nap: Call, deadline: nat)
    requires look.Look? && nap.Sleep?
  {
    Waiting(look.progress) && look.at < deadline && nap.ms == if INTERVAL < deadline - look.at then INTERVAL else deadline - look.at
  }

  predicate OnTime(look: Call, nap: Call, next: Call, deadline: nat)
    requires look.Look? && nap.Sleep? && next.Look?
  {
    look.at + nap.ms <= next.at && look.at + nap.ms < deadline
  }

  predicate LastLook(t: seq<Call>, p: Progress) { |t| > 0 && t[|t| - 1].Look? && t[|t| - 1].progress == p }

  /** Ready exactly when the last answer is FINISHED; an answer that decides otherwise is named; and only
      once the time is up, and not before, does the wait give up. */
  predicate WaitedBy(t: seq<Call>, container: string, span: Span, error: Option<string>) {
    && span.from <= span.until && Looking(t, container, span)
    && (error.None? <==> LastLook(t, Finished))
    && (error == Some("container_error") <==> LastLook(t, Errored))
    && (error == Some("container_expired") <==> LastLook(t, Expired))
    && (error == Some("container_status_missing") <==> LastLook(t, Absent))
    && (error.Some? && error.value !in {"container_error", "container_expired", "container_status_missing"} ==>
          error == Some("container_finished_timeout") && span.until >= span.Deadline())
  }

  /** Another look, after the sleep before it is over. */
  lemma LooksAgain(t: seq<Call>, container: string, start: nat, woke: nat, now: nat, p: Progress)
    requires start <= woke <= now && woke < start + DEADLINE && Looking(t, container, Span(start, woke))
    requires |t| > 0 ==> t[|t| - 1].Sleep?
    requires |t| > 0 ==> woke >= t[|t| - 2].at + t[|t| - 1].ms
    ensures Looking(t + [Look(container, p, now)], container, Span(start, now))
  {
  }

  lemma SleepsOn(t: seq<Call>, container: string, start: nat, before: nat, now: nat, nap: nat)
    requires |t| > 0 && t[|t| - 1].Look? && Waiting(t[|t| - 1].progress) && t[|t| - 1].at == before < start + DEADLINE
    requires start <= before <= now && Looking(t, container, Span(start, before))
    requires nap == if INTERVAL < start + DEADLINE - before then INTERVAL else start + DEADLINE - before
    ensures Looking(t + [Sleep(nap)], container, Span(start, now))
  {
  }

  function ErrorOf(p: Progress): Option<string> {
    match p
    case Finished => None
    case Errored => Some("container_error")
    case Expired => Some("container_expired")
    case Absent => Some("container_status_missing")
    case _ => Some("container_finished_timeout")
  }

  /** An answer that decides ends the wait with it ... */
  lemma WaitIsDecided(t: seq<Call>, container: string, span: Span, p: Progress)
    requires span.from <= span.until && Looking(t, container, span) && LastLook(t, p) && !Waiting(p)
    ensures WaitedBy(t, container, span, ErrorOf(p))
  {
  }

  /** ... and without one only the end of the time does. */
  lemma WaitTimesOut(t: seq<Call>, container: string, span: Span)
    requires span.from + DEADLINE <= span.until && Looking(t, container, span)
    requires |t| > 0 && t[|t| - 1].Look? ==> Waiting(t[|t| - 1].progress)
    ensures WaitedBy(t, container, span, Some("container_finished_timeout"))
  {
  }

  /** Each look is at least the interval after the one before. */
  lemma {:induction false} LooksAreSpaced(t: seq<Call>, container: string, span: Span, i: nat)
    requires Looking(t, container, span) && i < |t| && t[i].Look?
    ensures i % 2 == 0 && t[i].at >= span.from + i * (INTERVAL / 2)
  {
    if i > 0 {
      assert t[i - 1].Sleep?;
      assert t[i - 2].Look?;
      assert OnTime(t[i - 2], t[i - 1], t[i], span.Deadline()) && Goes(t[i - 2], t[i - 1], span.Deadline());
      LooksAreSpaced(t, container, span, i - 2);
    }
  }

  /** So a wait looks ten times at most, whatever it is told. */
  lemma AtMostTenLooks(t: seq<Call>, container: string, span: Span, error: Option<string>)
    requires WaitedBy(t, container, span, error)
    ensures |t| <= 20
  {
    if |t| > 2 {
      var last := if t[|t| - 1].Look? then |t| - 1 else |t| - 2;
      assert t[last].Look?;
      assert t[last - 1].Sleep?;
      LooksAreSpaced(t, container, span, last);
      LooksAreSpaced(t, container, span, last - 2);
      assert OnTime(t[last - 2], t[last - 1], t[last], span.Deadline()) && Goes(t[last - 2], t[last - 1], span.Deadline());
    }
  }

  /** Tried again only after a connect timeout, always with the same container; the last answer alone
      decides: published with the id it carries, raised on a body that is no object, else unknown. */
  predicate PublishedBy(t: seq<Call>, container: string, r: Result) {
    && 1 <= |t| <= 3
    && (forall i | 0 <= i < |t| :: t[i].Publish? && t[i].container == container)
    && (forall i | 0 <= i < |t| - 1 :: t[i].answer.ConnectTimeout?)
    && (t[|t| - 1].answer.ConnectTimeout? ==> |t| == 3)
    && (r.Published? <==> Accepted(t[|t| - 1].answer) && t[|t| - 1].answer.body.MediaId? && t[|t| - 1].answer.body.id != "")
    && (r.Published? ==> r.mediaId == t[|t| - 1].answer.body.id)
    && (r.Raised? <==> Accepted(t[|t| - 1].answer) && t[|t| - 1].answer.body.NotAnObject?)
    && (r.Failed? ==> r == Failed("outcome_unknown", true))
  }

  predicate Accepted(a: Answer) { a.Response? && a.status < 400 }

  // ── counting requests ──────────────────────────────────────────────────────

  /** media_publish requests made. */
  function Requests(t: seq<Call>): nat {
    if t == [] then 0 else Requests(t[..|t| - 1]) + if t[|t| - 1].Publish? then 1 else 0
  }

  /** Those that may have reached the server: every one that did not fail to connect. */
  function Reached(t: seq<Call>): nat {
    if t == [] then 0
    else Reached(t[..|t| - 1]) + if t[|t| - 1].Publish? && !t[|t| - 1].answer.ConnectTimeout? then 1 else 0
  }

  lemma {:induction false} CountsAdd(a: seq<Call>, b: seq<Call>)
    ensures Requests(a + b) == Requests(a) + Requests(b)
    ensures Reached(a + b) == Reached(a) + Reached(b)
  {
    if b == [] {
      assert a + b == a;
    } else {
      assert (a + b)[..|a + b| - 1] == a + b[..|b| - 1];
      CountsAdd(a, b[..|b| - 1]);
    }
  }

  lemma {:induction false} NothingPublished(t: seq<Call>)
    requires forall i | 0 <= i < |t| :: !t[i].Publish?
    ensures Requests(t) == 0 && Reached(t) == 0
  {
    if t != [] {
      NothingPublished(t[..|t| - 1]);
    }
  }

  lemma {:induction false} OnlyTimeouts(t: seq<Call>)
    requires forall i | 0 <= i < |t| :: t[i].Publish? && t[i].answer.ConnectTimeout?
    ensures Requests(t) == |t| && Reached(t) == 0
  {
    if t != [] {
      OnlyTimeouts(t[..|t| - 1]);
    }
  }

  lemma PublishPhaseCounts(t: seq<Call>, container: string, r: Result)
    requires PublishedBy(t, container, r)
    ensures Requests(t) == |t| && Reached(t) == if t[|t| - 1].answer.ConnectTimeout? then 0 else 1
  {
    OnlyTimeouts(t[..|t| - 1]);
  }

  // ── whole runs ─────────────────────────────────────────────────────────────

  /** What a caller may rely on, whatever the network did: of all media_publish requests at most one can
      have reached the server; a failure that is not marked unknown made none; a success made one that
      did, and carries a media id. */
  predicate Sound(t: seq<Call>, r: Result) {
    && Requests(t) <= 3 && Reached(t) <= 1
    && (r.Failed? && !r.unknown <==> Requests(t) == 0)
    && (r.Published? ==> r.mediaId != "" && Reached(t) == 1)
  }

  lemma NoRequestIsSound(t: seq<Call>, error: string)
    requires forall i | 0 <= i < |t| :: !t[i].Publish?
    ensures Sound(t, Failed(error, false))
  {
    NothingPublished(t);
  }

  lemma OnePublishPhaseIsSound(before: seq<Call>, pubs: seq<Call>, container: string, r: Result)
    requires forall i | 0 <= i < |before| :: !before[i].Publish?
    requires PublishedBy(pubs, container, r)
    ensures Sound(before + pubs, r)
  {
    CountsAdd(before, pubs);
    NothingPublished(before);
    PublishPhaseCounts(pubs, container, r);
  }

  /** A single post: the calls of the three phases, in order. */
  datatype Single = Single(creates: seq<Call>, waits: seq<Call>, span: Span, pubs: seq<Call>, container: Option<string>, waitError: Option<string>)
  {
    function Before(): seq<Call> { creates + waits }
    function Calls(): seq<Call> { Before() + pubs }
    function LogAfter(log: seq<Call>): (after: seq<Call>)
      ensures after == log + Calls()
    {
      log + creates + waits + pubs
    }

    predicate Went(item: Item, r: Result) {
      && CreatedBy(creates, item, container)
      && match container
         case None => waits == [] && pubs == [] && r == Failed("media_create_failed", false)
         case Some(c) =>
           && WaitedBy(waits, c, span, waitError)
           && match waitError
              case Some(error) => pubs == [] && r == Failed(error, false)
              case None => PublishedBy(pubs, c, r)
    }
  }

  ghost predicate SeenFinished(t: seq<Call>, container: string) {
    exists c :: c in t && c.Look? && c.container == container && c.progress.Finished?
  }

  /** Single posts: sound, and one container only: none is created once one is known, and what is
      published is that one, after it was seen FINISHED; and a wait is given up only when its time is up. */
  lemma SinglePostIsSound(s: Single, item: Item, r: Result)
    requires s.Went(item, r)
    ensures Sound(s.Calls(), r)
    ensures forall c | c in s.Calls() && c.Create? && c.id.Some? :: c.id == s.container && c == s.creates[|s.creates| - 1]
    ensures forall c | c in s.Calls() && c.Publish? :: s.container == Some(c.container) && SeenFinished(s.Before(), c.container)
    ensures r == Failed("container_finished_timeout", false) ==> s.span.until >= s.span.from + 30_000
  {
    if s.pubs == [] {
      assert s.Calls() == s.Before();
      NoRequestIsSound(s.Calls(), r.error);
    } else {
      OnePublishPhaseIsSound(s.Before(), s.pubs, s.container.value, r);
      assert s.waits[|s.waits| - 1] in s.Before();
    }
  }

  // ── carousels ──────────────────────────────────────────────────────────────

  predicate Https(url: string) { "https://" <= url }

  predicate ItemsValid(urls: seq<string>) {
    && CAROUSEL_MIN <= |urls| <= CAROUSEL_MAX
    && (forall i | 0 <= i < |urls| :: Https(urls[i]))
    && (forall i, j | 0 <= i < j < |urls| :: urls[i] != urls[j])
  }

  /** Two to four different https addresses. */
  lemma ValidItems(urls: seq<string>)
    ensures ItemsValid(urls) <==>
              && 2 <= |urls| <= 4
              && (forall i | 0 <= i < |urls| :: |urls[i]| >= 8 && urls[i][..8] == "https://")
              && (forall i, j | 0 <= i < j < |urls| :: urls[i] != urls[j])
  {
    var p := "https://";
    forall i | 0 <= i < |urls| ensures Https(urls[i]) <==> |urls[i]| >= 8 && urls[i][..8] == p {
      if p <= urls[i] { assert urls[i][..8] == p; }
      if |urls[i]| >= 8 && urls[i][..8] == p { assert urls[i] == p + urls[i][8..]; }
    }
  }

  /** The calls of a carousel, phase after phase. */
  type Phases = seq<seq<Call>>

  function Flat(ph: Phases): seq<Call> {
    if ph == [] then [] else Flat(ph[..|ph| - 1]) + ph[|ph| - 1]
  }

  predicate Quiet(t: seq<Call>) { forall c | c in t :: !c.Publish? }

  lemma {:induction false} InFlat(ph: Phases, i: nat, c: Call)
    requires i < |ph| && c in ph[i]
    ensures c in Flat(ph)
  {
    if i < |ph| - 1 {
      InFlat(ph[..|ph| - 1], i, c);
    }
  }

  lemma {:induction false} QuietFlat(ph: Phases)
    requires forall i | 0 <= i < |ph| :: Quiet(ph[i])
    ensures Quiet(Flat(ph))
  {
    if ph != [] {
      QuietFlat(ph[..|ph| - 1]);
    }
  }

  /** One creation phase a child in the order of the urls, one wait a child, and what follows; `ids` are
      the children there are, `parent` is the container made of them, `span` its wait. */
  datatype Carousel = Carousel(made: Phases, ids: seq<string>, waits: Phases, spans: seq<Span>, tail: Phases, parent: string, span: Span) {
    function Calls(): seq<Call> { Flat(made) + Flat(waits) + Flat(tail) }
    function LogAfter(log: seq<Call>): seq<Call> { log + Flat(made) + Flat(waits) + Flat(tail) }

    /** The ways a carousel can go, the first thing that fails ending it. */
    ghost predicate Went(urls: seq<string>, caption: string, ledger: bool, r: Result) {
      || ChildMissing(urls, r)
      || (ChildrenMade(made, urls, ids) && |ids| == |urls| && ChildrenWent(caption, ledger, r))
    }

    predicate ChildMissing(urls: seq<string>, r: Result) {
      && |ids| < |urls| <= |DIGITS| && |made| == |ids| + 1 && waits == [] && tail == []
      && ChildrenMade(made[..|ids|], urls, ids) && CreatedBy(made[|ids|], Child(urls[|ids|]), None)
      && r == Failed("child_create_failed_" + [DIGITS[|ids|]], false)
    }

    ghost predicate ChildrenWent(caption: string, ledger: bool, r: Result) {
      || ChildUnready(r)
      || (|waits| == |ids| && ChildrenReady(waits, spans, ids) && ParentWent(tail, span, ids, caption, ledger, parent, r))
    }

    ghost predicate ChildUnready(r: Result) {
      && 0 < |waits| == |spans| <= |ids| <= |DIGITS| && tail == []
      && var n := |waits| - 1;
         && ChildrenReady(waits[..n], spans[..n], ids) && r.Failed?
         && exists e :: WaitedBy(waits[n], ids[n], spans[n], Some(e)) && r == Failed("child" + [DIGITS[n]] + "_" + e, false)
    }
  }

  predicate ParentWent(tail: Phases, span: Span, ids: seq<string>, caption: string, ledger: bool, parent: string, r: Result) {
    if |tail| == 1 then CreatedBy(tail[0], Parent(ids, caption), None) && r == Failed("parent_create_failed", false)
    else
      && 2 <= |tail| <= 4 && parent != "" && CreatedBy(tail[0], Parent(ids, caption), Some(parent))
      && if |tail| == 2 then ledger && tail[1] == [Confide(parent, false)] && r == Failed("ledger_write_failed", false)
         else tail[1] == (if ledger then [Confide(parent, true)] else []) && ParentPublished(tail[2..], span, parent, r)
  }

  /** The wait for the parent, and its publication. */
  predicate ParentPublished(ph: Phases, span: Span, parent: string, r: Result) {
    if |ph| == 1 then r.Failed? && r == Failed(r.error, false) && WaitedBy(ph[0], parent, span, Some(r.error))
    else |ph| == 2 && WaitedBy(ph[0], parent, span, None) && PublishedBy(ph[1], parent, r)
  }

  predicate ChildrenMade(made: Phases, urls: seq<string>, ids: seq<string>) {
    && |made| == |ids| <= |urls|
    && forall i | 0 <= i < |ids| :: ids[i] != "" && CreatedBy(made[i], Child(urls[i]), Some(ids[i]))
  }

  predicate ChildrenReady(waits: Phases, spans: seq<Span>, ids: seq<string>) {
    && |waits| == |spans| <= |ids|
    && forall i | 0 <= i < |waits| :: WaitedBy(waits[i], ids[i], spans[i], None)
  }

  lemma Snoc(log: seq<Call>, ph: Phases, t: seq<Call>)
    ensures log + Flat(ph + [t]) == log + Flat(ph) + t
  {
    assert (ph + [t])[..|ph|] == ph;
  }

  lemma {:induction false} Join(log: seq<Call>, a: Phases, b: Phases)
    ensures log + Flat(a + b) == log + Flat(a) + Flat(b)
  {
    if b == [] {
      assert a + b == a;
    } else {
      var front := b[..|b| - 1];
      assert (a + b)[..|a + b| - 1] == a + front;
      Join(log, a, front);
      assert log + Flat(a + b) == log + Flat(a + front) + b[|b| - 1];
    }
  }

  lemma NoPhases(log: seq<Call>)
    ensures log + Flat([]) == log
  {
  }

  lemma MadeQuietly(made: Phases, urls: seq<string>, ids: seq<string>)
    requires ChildrenMade(made, urls, ids)
    ensures Quiet(Flat(made))
  {
    forall i | 0 <= i < |made| ensures Quiet(made[i]) {
      assert ids[i] != "";
    }
    QuietFlat(made);
  }

  lemma WaitedQuietly(waits: Phases, spans: seq<Span>, ids: seq<string>)
    requires ChildrenReady(waits, spans, ids)
    ensures Quiet(Flat(waits))
  {
    forall i | 0 <= i < |waits| ensures Quiet(waits[i]) {
      assert WaitedBy(waits[i], ids[i], spans[i], None);
    }
    QuietFlat(waits);
  }

  lemma TailIsQuiet(tail: Phases, span: Span, ids: seq<string>, caption: string, ledger: bool, parent: string, r: Result)
    requires ParentWent(tail, span, ids, caption, ledger, parent, r) && |tail| < 4
    ensures r.Failed? && !r.unknown && Quiet(Flat(tail))
  {
    forall i | 0 <= i < |tail| ensures Quiet(tail[i]) {
      assert i == 2 ==> tail[2..][0] == tail[2];
    }
    QuietFlat(tail);
  }

  lemma QuietCalls(c: Carousel)
    requires Quiet(Flat(c.made)) && Quiet(Flat(c.waits)) && Quiet(Flat(c.tail))
    ensures Quiet(c.Calls())
  {
  }

  lemma MissingIsQuiet(c: Carousel, urls: seq<string>, r: Result)
    requires c.ChildMissing(urls, r)
    ensures r.Failed? && !r.unknown && Quiet(c.Calls())
  {
    var n := |c.ids|;
    MadeQuietly(c.made[..n], urls, c.ids);
    LastIsQuiet(c.made, n);
    QuietCalls(c);
  }

  lemma LastIsQuiet(ph: Phases, n: nat)
    requires |ph| == n + 1 && Quiet(Flat(ph[..n])) && Quiet(ph[n])
    ensures Quiet(Flat(ph))
  {
    assert ph == ph[..n] + [ph[n]];
    Snoc([], ph[..n], ph[n]);
  }

  lemma WaitIsQuiet(t: seq<Call>, container: string, span: Span, error: Option<string>)
    requires WaitedBy(t, container, span, error)
    ensures Quiet(t)
  {
  }

  lemma WaitsAreQuiet(c: Carousel, r: Result)
    requires c.ChildUnready(r)
    ensures r.Failed? && !r.unknown && Quiet(Flat(c.waits)) && c.tail == []
  {
    var n := |c.waits| - 1;
    WaitedQuietly(c.waits[..n], c.spans[..n], c.ids);
    var e :| WaitedBy(c.waits[n], c.ids[n], c.spans[n], Some(e)) && r == Failed("child" + [DIGITS[n]] + "_" + e, false);
    WaitIsQuiet(c.waits[n], c.ids[n], c.spans[n], Some(e));
    LastIsQuiet(c.waits, n);
  }

  /** A carousel that stopped before publishing made no request, and says so for certain. */
  lemma StoppedQuietly(c: Carousel, urls: seq<string>, caption: string, ledger: bool, r: Result)
    requires c.Went(urls, caption, ledger, r) && |c.tail| < 4
    ensures r.Failed? && !r.unknown && Quiet(c.Calls())
  {
    if c.ChildMissing(urls, r) {
      MissingIsQuiet(c, urls, r);
    } else if c.ChildUnready(r) {
      MadeQuietly(c.made, urls, c.ids);
      WaitsAreQuiet(c, r);
      QuietCalls(c);
    } else {
      MadeQuietly(c.made, urls, c.ids);
      WaitedQuietly(c.waits, c.spans, c.ids);
      TailIsQuiet(c.tail, c.span, c.ids, caption, ledger, c.parent, r);
      QuietCalls(c);
    }
  }

  lemma CarouselIsSound(c: Carousel, urls: seq<string>, caption: string, ledger: bool, r: Result)
    requires c.Went(urls, caption, ledger, r)
    ensures Sound(c.Calls(), r)
    ensures forall log :: c.LogAfter(log) == log + c.Calls()
  {
    if |c.tail| < 4 {
      StoppedQuietly(c, urls, caption, ledger, r);
      NoRequestIsSound(c.Calls(), r.error);
    } else {
      CompleteIsSound(c, urls, caption, ledger, r);
    }
  }

  lemma CompleteIsSound(c: Carousel, urls: seq<string>, caption: string, ledger: bool, r: Result)
    requires c.Went(urls, caption, ledger, r) && |c.tail| >= 4
    ensures Sound(c.Calls(), r)
  {
    var before := BeforePublishing(c, urls, caption, ledger, r);
    OnePublishPhaseIsSound(before, c.tail[3], c.parent, r);
  }

  lemma BeforePublishing(c: Carousel, urls: seq<string>, caption: string, ledger: bool, r: Result) returns (before: seq<Call>)
    requires c.Went(urls, caption, ledger, r) && |c.tail| >= 4
    ensures before == Flat(c.made) + Flat(c.waits) + Flat(c.tail[..3]) && Quiet(before) && c.Calls() == before + c.tail[3]
    ensures ChildrenMade(c.made, urls, c.ids) && |c.ids| == |urls| == |c.waits| && ChildrenReady(c.waits, c.spans, c.ids)
    ensures |c.tail| == 4 && WaitedBy(c.tail[2], c.parent, c.span, None) && PublishedBy(c.tail[3], c.parent, r)
  {
    before := Flat(c.made) + Flat(c.waits) + Flat(c.tail[..3]);
    MadeQuietly(c.made, urls, c.ids);
    WaitedQuietly(c.waits, c.spans, c.ids);
    assert c.tail[2..][0] == c.tail[2] && c.tail[2..][1] == c.tail[3];
    QuietFlat(c.tail[..3]);
    assert Flat(c.tail) == Flat(c.tail[..3]) + c.tail[3];
  }

  /** A publish request for a carousel means that, before it, every child was made from its url, in
      order, and seen FINISHED; that the parent was made of exactly those children; that the ledger
      accepted exactly that parent; and that the parent was seen FINISHED. */
  lemma PublishedMeansReady(c: Carousel, urls: seq<string>, caption: string, ledger: bool, r: Result) returns (before: seq<Call>)
    requires c.Went(urls, caption, ledger, r) && Requests(c.Calls()) > 0
    ensures before <= c.Calls() && Quiet(before) && |c.ids| == |urls|
    ensures forall x | x in c.Calls() && x.Publish? :: x.container == c.parent
    ensures forall i | 0 <= i < |urls| :: Create(Child(urls[i]), Some(c.ids[i])) in before && SeenFinished(before, c.ids[i])
    ensures Create(Parent(c.ids, caption), Some(c.parent)) in before && SeenFinished(before, c.parent)
    ensures ledger ==> Confide(c.parent, true) in before
  {
    if |c.tail| < 4 {
      StoppedQuietly(c, urls, caption, ledger, r);
      NothingPublished(c.Calls());
    }
    before := BeforePublishing(c, urls, caption, ledger, r);
    forall i | 0 <= i < |urls|
      ensures Create(Child(urls[i]), Some(c.ids[i])) in before && SeenFinished(before, c.ids[i])
    {
      ChildIsReady(c.made, c.waits, c.spans, urls, c.ids, i);
    }
    ParentIsReady(c.tail, c.span, c.ids, caption, ledger, c.parent, r);
  }

  lemma ChildIsReady(made: Phases, waits: Phases, spans: seq<Span>, urls: seq<string>, ids: seq<string>, i: nat)
    requires ChildrenMade(made, urls, ids) && ChildrenReady(waits, spans, ids) && i < |waits| == |ids|
    ensures Create(Child(urls[i]), Some(ids[i])) in Flat(made) && SeenFinished(Flat(waits), ids[i])
  {
    assert ids[i] != "" && WaitedBy(waits[i], ids[i], spans[i], None);
    InFlat(made, i, made[i][|made[i]| - 1]);
    InFlat(waits, i, waits[i][|waits[i]| - 1]);
  }

  lemma ParentIsReady(tail: Phases, span: Span, ids: seq<string>, caption: string, ledger: bool, parent: string, r: Result)
    requires ParentWent(tail, span, ids, caption, ledger, parent, r) && |tail| == 4
    ensures Create(Parent(ids, caption), Some(parent)) in Flat(tail[..3]) && SeenFinished(Flat(tail[..3]), parent)
    ensures ledger ==> Confide(parent, true) in Flat(tail[..3])
  {
    var front := tail[..3];
    assert tail[2..][0] == front[2];
    InFlat(front, 0, front[0][|front[0]| - 1]);
    if ledger {
      InFlat(front, 1, front[1][0]);
    }
    InFlat(front, 2, front[2][|front[2]| - 1]);
  }

  function Nothing(made: Phases, ids: seq<string>): Carousel { Carousel(made, ids, [], [], [], "", Span(0, 0)) }

  lemma StopsAtChild(made: Phases, ids: seq<string>, t: seq<Call>, urls: seq<string>, caption: string, ledger: bool)
    requires |ids| < |urls| <= |DIGITS| && ChildrenMade(made, urls, ids) && CreatedBy(t, Child(urls[|ids|]), None)
    ensures Nothing(made + [t], ids).Went(urls, caption, ledger, Failed("child_create_failed_" + [DIGITS[|ids|]], false))
  {
    assert (made + [t])[..|ids|] == made;
  }

  predicate Within(spans: seq<Span>, from: nat, until: nat) {
    forall i | 0 <= i < |spans| :: from <= spans[i].from <= spans[i].until <= until
  }

  // ── the methods ────────────────────────────────────────────────────────────

  class Graph {
    var log: seq<Call>
    var clock: nat

    /** Time passes. */
    method Tick()
      modifies this`clock
      ensures clock >= old(clock)
    {
      var now: int := *;
      if now > clock { clock := now; }
    }

    method Nap(ms: nat)
      modifies this
      ensures log == old(log) + [Sleep(ms)] && clock >= old(clock) + ms
    {
      log := log + [Sleep(ms)];
      clock := clock + ms;
      Tick();
    }

    /** The carousel takes an answer without a usable id for a failed attempt; a single post does not look. */
    method PostMedia(item: Item) returns (id: Option<string>)
      modifies this
      ensures log == old(log) + [Create(item, id)] && clock >= old(clock)
      ensures !item.Photo? ==> id != Some("")
    {
      id := *;
      if !item.Photo? && id == Some("") { id := None; }
      log := log + [Create(item, id)];
      Tick();
    }

    method GetStatus(container: string) returns (p: Progress)
      modifies this
      ensures log == old(log) + [Look(container, p, clock)] && clock >= old(clock)
    {
      p := *;
      Tick();
      log := log + [Look(container, p, clock)];
    }

    method PostPublish(container: string) returns (a: Answer)
      modifies this
      ensures log == old(log) + [Publish(container, a)] && clock >= old(clock)
    {
      a := *;
      log := log + [Publish(container, a)];
      Tick();
    }

    /** on_parent_created; an exception counts as a refusal. */
    method CallBack(container: string) returns (accepted: bool)
      modifies this
      ensures log == old(log) + [Confide(container, accepted)] && clock >= old(clock)
    {
      accepted := *;
      log := log + [Confide(container, accepted)];
      Tick();
    }

    method CreateContainer(item: Item) returns (id: Option<string>, ghost t: seq<Call>)
      modifies this
      ensures log == old(log) + t && CreatedBy(t, item, id) && clock >= old(clock)
      ensures !item.Photo? ==> id != Some("")
    {
      t := [];
      id := None;
      var attempt := 1;
      while attempt <= ATTEMPTS
        invariant 1 <= attempt <= ATTEMPTS + 1 && |t| == attempt - 1 && log == old(log) + t
        invariant forall i | 0 <= i < |t| :: t[i] == Create(item, None)
        invariant id.None? && clock >= old(clock)
      {
        id := PostMedia(item);
        t := t + [Create(item, id)];
        if id.Some? {
          return;
        }
        attempt := attempt + 1;
      }
    }

    /** What the loop has logged since `start`: a sleep that is over, or an answer that came too late. */
    ghost predicate StillLooking(t: seq<Call>, container: string, start: nat) reads this {
      && start <= clock && Looking(t, container, Span(start, clock))
      && (|t| > 0 && t[|t| - 1].Look? ==> clock >= start + DEADLINE && Waiting(t[|t| - 1].progress))
      && (|t| > 0 && t[|t| - 1].Sleep? ==> clock >= t[|t| - 2].at + t[|t| - 1].ms)
    }

    method WaitContainerFinished(container: string) returns (error: Option<string>, ghost t: seq<Call>, ghost span: Span)
      modifies this
      ensures log == old(log) + t && WaitedBy(t, container, span, error)
      ensures span == Span(old(clock), clock)
    {
      var deadline := clock + DEADLINE;
      t, span := [], Span(clock, clock);
      while clock < deadline
        invariant log == old(log) + t && StillLooking(t, container, span.from) && span.from == old(clock)
        decreases deadline - clock
      {
        var p := LookOnce(container, t, span.from);
        t := t + [Look(container, p, clock)];
        span := Span(span.from, clock);
        if !Waiting(p) {
          WaitIsDecided(t, container, span, p);
          return ErrorOf(p), t, span;
        }
        if p.InProgress? && clock >= deadline { break; }
        if clock < deadline {
          ghost var nap := Rest(deadline, t, container, span.from);
          t := t + [Sleep(nap)];
        }
      }
      error, span := Some("container_finished_timeout"), Span(span.from, clock);
      WaitTimesOut(t, container, span);
    }

    method LookOnce(container: string, ghost t: seq<Call>, ghost start: nat) returns (p: Progress)
      requires StillLooking(t, container, start) && clock < start + DEADLINE
      modifies this
      ensures log == old(log) + [Look(container, p, clock)] && clock >= old(clock)
      ensures Looking(t + [Look(container, p, clock)], container, Span(start, clock))
    {
      ghost var woke := clock;
      p := GetStatus(container);
      LooksAgain(t, container, start, woke, clock, p);
    }

    /** Sleep between two looks. */
    method Rest(deadline: nat, ghost t: seq<Call>, container: string, ghost start: nat) returns (ghost nap': nat)
      requires |t| > 0 && t[|t| - 1].Look? && Waiting(t[|t| - 1].progress) && t[|t| - 1].at == clock < deadline == start + DEADLINE
      requires Looking(t, container, Span(start, clock))
      modifies this
      ensures log == old(log) + [Sleep(nap')] && StillLooking(t + [Sleep(nap')], container, start) && clock > old(clock)
    {
      var nap := if INTERVAL < deadline - clock then INTERVAL else deadline - clock;
      Nap(nap);
      nap' := nap;
      SleepsOn(t, container, start, old(clock), clock, nap);
    }

    method PublishReadyContainer(container: string) returns (r: Result, ghost t: seq<Call>)
      modifies this
      ensures log == old(log) + t && PublishedBy(t, container, r) && clock >= old(clock)
    {
      t := [];
      var attempt := 1;
      while attempt <= ATTEMPTS
        invariant 1 <= attempt <= ATTEMPTS && |t| == attempt - 1 && log == old(log) + t && clock >= old(clock)
        invariant forall i | 0 <= i < |t| :: t[i] == Publish(container, ConnectTimeout)
        decreases ATTEMPTS - attempt
      {
        var a := PostPublish(container);
        t := t + [Publish(container, a)];
        match a
        case ConnectTimeout =>
          if attempt == ATTEMPTS {
            return Failed("outcome_unknown", true), t;
          }
          attempt := attempt + 1;
        case Broken => return Failed("outcome_unknown", true), t;
        case Response(status, body) =>
          if status >= 400 {
            return Failed("outcome_unknown", true), t;
          }
          match body {
            case NotAnObject => return Raised, t;
            case NoId => return Failed("outcome_unknown", true), t;
            case MediaId(id) =>
              if id == "" {
                return Failed("outcome_unknown", true), t;
              }
              return Published(id), t;
          }
      }
    }

    method PublishSingle(imageUrl: string, prepared: string, caption: string) returns (r: Result, ghost s: Single)
      modifies this
      ensures imageUrl == "" ==> r == Failed("image_url_missing", false) && log == old(log)
      ensures imageUrl != "" ==> log == s.LogAfter(old(log)) && s.Went(Photo(prepared, caption), r) && Sound(s.Calls(), r)
      ensures imageUrl != "" && s.container.Some? ==> old(clock) <= s.span.from <= s.span.until <= clock
      ensures imageUrl != "" && r == Failed("container_finished_timeout", false) ==> clock >= old(clock) + 30_000
    {
      ghost var none := Span(0, 0);
      if imageUrl == "" {
        return Failed("image_url_missing", false), Single([], [], none, [], None, None);
      }
      ghost var creates, waits, span, pubs;
      var id, error;
      id, creates := CreateContainer(Photo(prepared, caption));
      if id.None? {
        s := Single(creates, [], none, [], None, None);
        SinglePostIsSound(s, Photo(prepared, caption), Failed("media_create_failed", false));
        return Failed("media_create_failed", false), s;
      }
      error, waits, span := WaitContainerFinished(id.value);
      if error.Some? {
        s := Single(creates, waits, span, [], id, error);
        SinglePostIsSound(s, Photo(prepared, caption), Failed(error.value, false));
        return Failed(error.value, false), s;
      }
      r, pubs := PublishReadyContainer(id.value);
      s := Single(creates, waits, span, pubs, id, None);
      SinglePostIsSound(s, Photo(prepared, caption), r);
    }

    /** `c` tells the whole run; its waits lie in the time of the call. */
    method PublishCarousel(urls: seq<string>, caption: string, ledger: bool) returns (r: Result, ghost c: Carousel)
      modifies this
      ensures log == c.LogAfter(old(log))
      ensures !ItemsValid(urls) ==> r == Failed("carousel_items_invalid", false) && log == old(log)
      ensures ItemsValid(urls) ==> c.Went(urls, caption, ledger, r) && Within(c.spans, old(clock), clock)
      ensures ItemsValid(urls) && |c.tail| > 2 ==> old(clock) <= c.span.from <= c.span.until <= clock
    {
      c := Nothing([], []);
      NoPhases(log);
      if !ItemsValid(urls) {
        return Failed("carousel_items_invalid", false), c;
      }
      ghost var t;
      var ids: seq<string> := [];
      ghost var made: Phases := [];
      while |ids| < |urls|
        invariant ChildrenMade(made, urls, ids) && clock >= old(clock)
        invariant log == old(log) + Flat(made)
      {
        var id;
        id, t := CreateContainer(Child(urls[|ids|]));
        Snoc(old(log), made, t);
        if id.None? {
          c := Nothing(made + [t], ids);
          StopsAtChild(made, ids, t, urls, caption, ledger);
          NoPhases(log);
          return Failed("child_create_failed_" + [DIGITS[|ids|]], false), c;
        }
        made, ids := made + [t], ids + [id.value];
      }
      r, c := AwaitChildren(caption, ledger, ids, made);
    }

    /** The second half of publish_carousel, once every child is made. */
    method AwaitChildren(caption: string, ledger: bool, ids: seq<string>, ghost made: Phases) returns (r: Result, ghost c: Carousel)
      requires 1 <= |ids| <= |DIGITS|
      modifies this
      ensures log == old(log) + Flat(c.waits) + Flat(c.tail) && c.made == made && c.ids == ids
      ensures c.ChildrenWent(caption, ledger, r) && Within(c.spans, old(clock), clock)
      ensures |c.tail| > 2 ==> old(clock) <= c.span.from <= c.span.until <= clock
    {
      var i, error := 0, None;
      ghost var t, span;
      ghost var waits: Phases := [];
      ghost var spans: seq<Span> := [];
      NoPhases(log);
      while i < |ids|
        invariant i == |waits| <= |ids| && ChildrenReady(waits, spans, ids) && clock >= old(clock) && Within(spans, old(clock), clock)
        invariant log == old(log) + Flat(waits)
      {
        error, t, span := WaitContainerFinished(ids[i]);
        Snoc(old(log), waits, t);
        if error.Some? {
          c := Carousel(made, ids, waits + [t], spans + [span], [], "", span);
          assert c.waits[..i] == waits && c.spans[..i] == spans;
          assert WaitedBy(c.waits[i], ids[i], c.spans[i], Some(error.value));
          NoPhases(log);
          return Failed("child" + [DIGITS[i]] + "_" + error.value, false), c;
        }
        waits, spans, i := waits + [t], spans + [span], i + 1;
      }
      ghost var tail, parent;
      r, tail, parent, span := PublishParent(caption, ledger, ids);
      c := Carousel(made, ids, waits, spans, tail, parent, span);
    }

    method PublishParent(caption: string, ledger: bool, ids: seq<string>)
      returns (r: Result, ghost tail: Phases, ghost parent': string, ghost span: Span)
      modifies this
      ensures log == old(log) + Flat(tail) && ParentWent(tail, span, ids, caption, ledger, parent', r)
      ensures clock >= old(clock) && (|tail| > 2 ==> old(clock) <= span.from <= span.until <= clock)
    {
      ghost var t, rest;
      tail, parent', span := [], "", Span(0, 0);
      NoPhases(log);
      var parent;
      parent, t := CreateContainer(Parent(ids, caption));
      Snoc(old(log), tail, t);
      tail := tail + [t];
      if parent.None? {
        return Failed("parent_create_failed", false), tail, "", span;
      }
      ghost var made := t;
      var recorded := true;
      t := [];
      if ledger {
        recorded := CallBack(parent.value);
        t := [Confide(parent.value, recorded)];
      }
      Snoc(old(log), tail, t);
      tail := tail + [t];
      if !recorded {
        return Failed("ledger_write_failed", false), tail, parent.value, span;
      }
      ghost var confided := t;
      assert tail == [made, confided];
      r, rest, span := PublishParentContainer(parent.value);
      Join(old(log), tail, rest);
      assert (tail + rest)[2..] == rest;
      tail, parent' := tail + rest, parent.value;
    }

    /** The wait for the parent, and its publication. */
    method PublishParentContainer(parent: string) returns (r: Result, ghost ph: Phases, ghost span: Span)
      modifies this
      ensures log == old(log) + Flat(ph) && 1 <= |ph| <= 2 && ParentPublished(ph, span, parent, r)
      ensures old(clock) <= span.from <= span.until <= clock
    {
      var error;
      ghost var t;
      NoPhases(log);
      error, t, span := WaitContainerFinished(parent);
      Snoc(old(log), [], t);
      ph := [] + [t];
      if error.Some? {
        return Failed(error.value, false), ph, span;
      }
      r, t := PublishReadyContainer(parent);
      Snoc(old(log), ph, t);
      ph := ph + [t];
    }
  }
}
