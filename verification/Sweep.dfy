/**
 The conditional sweep: pages of ready Issues are re-fetched with the validators of the
 cached copy, and what left the collection is announced before the cache is replaced.
 */
module Sweep {
  import opened Wrappers
  import opened Sorting
  import Mailbox

  const LAST_PAGE := 10
  const PAGE_SIZE := 100

  /** An Issue as a page lists it. */
  datatype Listed = Listed(number: nat, content: nat)

  /** What a page holds: how many items the server counted, and the Issues among them. */
  datatype Body = Body(count: nat, issues: seq<Listed>)
  {
    function Numbers(): set<nat> { set i | i in issues :: i.number }
  }

  /** Entity tag and modification date, zero standing for an absent one. */
  datatype Validator = Validator(etag: nat, modified: nat)
  {
    predicate Empty() { etag == 0 && modified == 0 }

    /** A 304 may renew either part. */
    function Renewed(next: Validator): Validator {
      Validator(if next.etag != 0 then next.etag else etag, if next.modified != 0 then next.modified else modified)
    }
  }

  datatype Page = Page(validator: Validator, body: Body)

  type Cache = map<nat, Page>

  const NO_PAGE := Page(Validator(0, 0), Body(0, []))

  datatype Response =
    | NotModified(validator: Validator)
    | Success(validator: Validator, body: Body)
    | Other
    | Failure

  function At(c: Cache, page: nat): Page { if page in c then c[page] else NO_PAGE }

  /** The cached page after a response; other statuses leave it alone. */
  function Update(cached: Page, r: Response): Page {
    match r
    case NotModified(v) => cached.(validator := cached.validator.Renewed(v))
    case Success(v, b) => Page(v, b)
    case _ => cached
  }

  function Stored(c: Cache, page: nat, r: Response): Cache {
    if r.NotModified? || r.Success? then c[page := Update(At(c, page), r)] else c
  }

  function WithoutStale(c: Cache, page: nat): Cache {
    map p | p in c && !(page < p <= LAST_PAGE) :: c[p]
  }

  /** The pages after a sweep from `page` on; `ask` gives the response to each conditional request. */
  function Swept(ask: (nat, Validator) -> Response, c: Cache, page: nat): Option<Cache>
    requires page <= LAST_PAGE + 1
    decreases LAST_PAGE + 1 - page
  {
    if page > LAST_PAGE then Some(c)
    else
      var r := ask(page, At(c, page).validator);
      if r.Failure? then None
      else
        var c' := Stored(c, page, r);
        if Update(At(c, page), r).body.count < PAGE_SIZE then Some(WithoutStale(c', page)) else Swept(ask, c', page + 1)
  }

  /** The Issues of the pages that were sent in full. */
  function Refreshed(ask: (nat, Validator) -> Response, c: Cache, page: nat): set<nat>
    requires page <= LAST_PAGE + 1
    decreases LAST_PAGE + 1 - page
  {
    if page > LAST_PAGE then {}
    else
      var r := ask(page, At(c, page).validator);
      if r.Failure? then {}
      else
        var numbers := if r.Success? then r.body.Numbers() else {};
        if Update(At(c, page), r).body.count < PAGE_SIZE then numbers
        else numbers + Refreshed(ask, Stored(c, page, r), page + 1)
  }

  /** The numbers of the Issues that the pages make up. */
  function Compose(c: Cache): set<nat> { set p, n | p in c && n in c[p].body.Numbers() :: n }

  function Overlay(m: map<nat, Listed>, issues: seq<Listed>): map<nat, Listed>
    decreases |issues|
  {
    if issues == [] then m else Overlay(m[issues[0].number := issues[0]], issues[1..])
  }

  /** The Issues of the pages, visited in some order; the last one listed under a number stands. */
  function Composed(pages: map<nat, Body>, order: seq<nat>, m: map<nat, Listed>): map<nat, Listed>
    decreases |order|
  {
    if order == [] then m
    else Composed(pages, order[1..], if order[0] in pages then Overlay(m, pages[order[0]].issues) else m)
  }

  // ---------------------------------------------------------------- agreement with an unconditional fetch

  /** The page an unconditional fetch stops at. */
  function LastFetched(current: nat -> Body, page: nat): nat
    requires 1 <= page <= LAST_PAGE
    decreases LAST_PAGE - page
  {
    if page == LAST_PAGE || current(page).count < PAGE_SIZE then page else LastFetched(current, page + 1)
  }

  lemma {:induction false} LastFetchedInRange(current: nat -> Body, page: nat)
    requires 1 <= page <= LAST_PAGE
    ensures page <= LastFetched(current, page) <= LAST_PAGE
    decreases LAST_PAGE - page
  {
    if page < LAST_PAGE && current(page).count >= PAGE_SIZE { LastFetchedInRange(current, page + 1); }
  }

  /** The bodies an unconditional fetch of all pages would return. */
  function Fetched(current: nat -> Body): map<nat, Body> {
    map p | 1 <= p <= LastFetched(current, 1) :: current(p)
  }

  /** Exactly the pages up to `last`, with their current bodies. */
  ghost predicate HoldsPages(current: nat -> Body, c: Cache, last: nat) {
    forall p: nat :: (p in c <==> 1 <= p <= last) && (p in c ==> c[p].body == current(p))
  }

  function FetchedIssues(current: nat -> Body): set<nat> {
    set p, n | p in Fetched(current) && n in Fetched(current)[p].Numbers() :: n
  }

  function Bodies(c: Cache): map<nat, Body> { map p | p in c :: c[p].body }

  /**
   `shown` is what the server presented under a validator.  A truthful server answers 304 only
   to a validator, and only while that still shows the current body; whatever validator it sends
   shows the current body (sections 13.1 and 15.4.5 of RFC 9110).
   */
  predicate TruthfulAt(shown: (nat, Validator) -> Body, current: nat -> Body, page: nat, sent: Validator, r: Response) {
    match r
    case NotModified(v) =>
      !sent.Empty() && shown(page, sent) == current(page) && shown(page, sent.Renewed(v)) == current(page)
    case Success(v, b) => b == current(page) && (!v.Empty() ==> shown(page, v) == b)
    case Other => false
    case Failure => true
  }

  ghost predicate Truthful(shown: (nat, Validator) -> Body, current: nat -> Body, ask: (nat, Validator) -> Response) {
    forall page, sent :: TruthfulAt(shown, current, page, sent, ask(page, sent))
  }

  /** Every cached body is what its validator showed, and only swept pages are cached. */
  predicate CacheGood(shown: (nat, Validator) -> Body, c: Cache) {
    forall p :: p in c ==> 1 <= p <= LAST_PAGE && (!c[p].validator.Empty() ==> c[p].body == shown(p, c[p].validator))
  }

  /** Pages below `page` are current and full. */
  predicate DoneBelow(current: nat -> Body, c: Cache, page: nat) {
    forall p :: 1 <= p < page ==> p in c && c[p].body == current(p) && current(p).count >= PAGE_SIZE
  }

  lemma PageAnswered(
      shown: (nat, Validator) -> Body, current: nat -> Body, ask: (nat, Validator) -> Response, c: Cache, page: nat)
    requires Truthful(shown, current, ask) && CacheGood(shown, c) && 1 <= page <= LAST_PAGE
    requires !ask(page, At(c, page).validator).Failure?
    ensures var r := ask(page, At(c, page).validator);
            var c' := Stored(c, page, r);
            && CacheGood(shown, c') && page in c' && c'[page].body == current(page)
            && Update(At(c, page), r).body == current(page)
            && (forall p :: p in c && p != page ==> p in c' && c'[p] == c[p]) && c'.Keys == c.Keys + {page}
  {
    var r := ask(page, At(c, page).validator);
    assert TruthfulAt(shown, current, page, At(c, page).validator, r);
  }

  /** The next request for a page carries what the last response said of it: a new validator, or the old one with
      the renewed parts; a response that says nothing leaves it. */
  lemma ValidatorsFollow(c: Cache, page: nat, r: Response)
    ensures var was, next := At(c, page), At(Stored(c, page, r), page);
            && (r.Success? ==> next == Page(r.validator, r.body))
            && (r.NotModified? ==>
                  && next.body == was.body
                  && next.validator.etag == (if r.validator.etag != 0 then r.validator.etag else was.validator.etag)
                  && next.validator.modified
                     == (if r.validator.modified != 0 then r.validator.modified else was.validator.modified))
            && (r.Other? || r.Failure? ==> Stored(c, page, r) == c)
            && forall p :: p != page ==> At(Stored(c, page, r), p) == At(c, p)
  {
  }

  lemma {:induction false} SweepFetches(
      shown: (nat, Validator) -> Body, current: nat -> Body, ask: (nat, Validator) -> Response, c: Cache, page: nat)
    requires Truthful(shown, current, ask) && CacheGood(shown, c) && 1 <= page <= LAST_PAGE
    requires DoneBelow(current, c, page) && Swept(ask, c, page).Some?
    ensures var t := Swept(ask, c, page).value;
            CacheGood(shown, t) && HoldsPages(current, t, LastFetched(current, page))
    decreases LAST_PAGE - page
  {
    hide Truthful, Update, CacheGood;
    var r := ask(page, At(c, page).validator);
    var c' := Stored(c, page, r);
    PageAnswered(shown, current, ask, c, page);
    if current(page).count < PAGE_SIZE {
      StaleGone(shown, current, c', page);
    } else if page < LAST_PAGE {
      SweepFetches(shown, current, ask, c', page + 1);
    } else {
      assert Swept(ask, c', page + 1) == Some(c');
      StaleGone(shown, current, c', page);
      assert WithoutStale(c', page) == c' by { WithinPages(shown, c', page); }
    }
  }

  lemma WithinPages(shown: (nat, Validator) -> Body, c: Cache, page: nat)
    requires CacheGood(shown, c) && page == LAST_PAGE
    ensures WithoutStale(c, page) == c
  {
  }

  lemma StaleGone(shown: (nat, Validator) -> Body, current: nat -> Body, c: Cache, page: nat)
    requires CacheGood(shown, c) && 1 <= page <= LAST_PAGE && DoneBelow(current, c, page)
    requires page in c && c[page].body == current(page)
    ensures var t := WithoutStale(c, page);
            CacheGood(shown, t) && HoldsPages(current, t, page)
  {
  }

  /** With truthful responses the cached pages after a sweep are exactly those of an unconditional
      fetch, and the next sweep starts from a cache that is again good. */
  lemma SweepAgrees(shown: (nat, Validator) -> Body, current: nat -> Body, ask: (nat, Validator) -> Response, c: Cache)
    requires Truthful(shown, current, ask) && CacheGood(shown, c) && Swept(ask, c, 1).Some?
    ensures var t := Swept(ask, c, 1).value;
            && CacheGood(shown, t) && HoldsPages(current, t, LastFetched(current, 1))
            && Bodies(t) == Fetched(current) && Compose(t) == FetchedIssues(current)
            && forall order :: Composed(Bodies(t), order, map[]) == Composed(Fetched(current), order, map[])
  {
    hide Truthful, CacheGood, Swept;
    SweepFetches(shown, current, ask, c, 1);
    LastFetchedInRange(current, 1);
    var t := Swept(ask, c, 1).value;
    forall n ensures n in Compose(t) <==> n in FetchedIssues(current) {
      if p :| p in t && n in t[p].body.Numbers() {
        assert p in Fetched(current) && n in Fetched(current)[p].Numbers();
      }
      if p :| p in Fetched(current) && n in Fetched(current)[p].Numbers() {
        assert p in t && n in t[p].body.Numbers();
      }
    }
  }

  /** The page was not cached, or has another body now. */
  predicate Changed(current: nat -> Body, c: Cache, page: nat) { page !in c || c[page].body != current(page) }

  /** Some of the pages from `page` on lists the Issue. */
  ghost predicate ListedFrom(current: nat -> Body, page: nat, last: nat, n: nat) {
    exists p :: page <= p <= last && n in current(p).Numbers()
  }

  lemma PageTold(
      shown: (nat, Validator) -> Body, current: nat -> Body, ask: (nat, Validator) -> Response, c: Cache, page: nat)
    requires Truthful(shown, current, ask) && CacheGood(shown, c) && 1 <= page <= LAST_PAGE
    requires !ask(page, At(c, page).validator).Failure?
    ensures var r := ask(page, At(c, page).validator);
            (Changed(current, c, page) ==> r.Success?) && (r.Success? ==> r.body == current(page))
  {
    assert TruthfulAt(shown, current, page, At(c, page).validator, ask(page, At(c, page).validator));
  }

  lemma ListedSplit(current: nat -> Body, page: nat, last: nat, n: nat)
    requires page <= last
    ensures ListedFrom(current, page, last, n) <==>
            (n in current(page).Numbers() || ListedFrom(current, page + 1, last, n))
  {
    if ListedFrom(current, page, last, n) {
      var p :| page <= p <= last && n in current(p).Numbers();
      assert p == page || page + 1 <= p <= last;
    }
    if ListedFrom(current, page + 1, last, n) {
      var p :| page + 1 <= p <= last && n in current(p).Numbers();
      assert page <= p <= last;
    }
  }

  /** Every Issue on a page that changed is refreshed, and every refreshed Issue is on a page. */
  lemma {:induction false} RefreshesChanges(
      shown: (nat, Validator) -> Body, current: nat -> Body, ask: (nat, Validator) -> Response, c: Cache, page: nat)
    requires Truthful(shown, current, ask) && CacheGood(shown, c) && 1 <= page <= LAST_PAGE
    requires Swept(ask, c, page).Some?
    ensures forall p, n :: page <= p <= LastFetched(current, page) && Changed(current, c, p) ==>
                             n in current(p).Numbers() ==> n in Refreshed(ask, c, page)
    ensures forall n :: n in Refreshed(ask, c, page) ==> ListedFrom(current, page, LastFetched(current, page), n)
    decreases LAST_PAGE - page
  {
    hide Truthful, Update, CacheGood, ListedFrom;
    var r := ask(page, At(c, page).validator);
    var c' := Stored(c, page, r);
    var last := LastFetched(current, page);
    LastFetchedInRange(current, page);
    PageAnswered(shown, current, ask, c, page);
    PageTold(shown, current, ask, c, page);
    forall n ensures ListedFrom(current, page, last, n) <==>
                     n in current(page).Numbers() || ListedFrom(current, page + 1, last, n) {
      ListedSplit(current, page, last, n);
    }
    if current(page).count >= PAGE_SIZE {
      if page < LAST_PAGE {
        RefreshesChanges(shown, current, ask, c', page + 1);
        assert forall p :: p != page ==> (Changed(current, c', p) <==> Changed(current, c, p));
      } else {
        assert Refreshed(ask, c', page + 1) == {};
      }
    }
  }

  // ---------------------------------------------------------------- the state file

  datatype State = State(pages: Cache, legacy: Validator)

  /** Loading a state from before pagination: its validator is not taken over, because no body was
      cached with it. */
  function Load(file: Option<State>): Cache {
    match file
    case None => map[]
    case Some(s) => if s.pages == map[] && !s.legacy.Empty() then map[1 := NO_PAGE] else s.pages
  }

  ghost predicate FileGood(shown: (nat, Validator) -> Body, file: Option<State>) {
    file.Some? ==> CacheGood(shown, file.value.pages)
  }

  /** Loading keeps the cache good, whatever validator an old file carries. */
  lemma LoadIsGood(shown: (nat, Validator) -> Body, file: Option<State>)
    requires FileGood(shown, file)
    ensures CacheGood(shown, Load(file))
  {
  }

  // ---------------------------------------------------------------- announcing what changed

  datatype Change = Reconciled | Exited

  /** The stable intent for one Issue and one kind of change. */
  datatype Intent = Intent(number: nat, change: Change)

  datatype World = World(file: Option<State>, box: map<Intent, Mailbox.Delivery>, announced: set<nat>)

  datatype Write =
    | Enqueue(intent: Intent, delivery: Mailbox.Delivery)
    | Save(state: State)

  function Apply(w: World, x: Write): World {
    match x
    case Enqueue(i, d) =>
      w.(box := if i in w.box then w.box else w.box[i := d],
         announced := if i.change.Exited? then w.announced + {i.number} else w.announced)
    case Save(s) => w.(file := Some(s))
  }

  function ApplyAll(w: World, xs: seq<Write>): World
    decreases |xs|
  {
    if xs == [] then w else ApplyAll(Apply(w, xs[0]), xs[1..])
  }

  function IntentFor(exits: set<nat>, n: nat): Intent { Intent(n, if n in exits then Exited else Reconciled) }

  /** An intent's file already holds something else. */
  predicate Collides(w: World, i: Intent, d: Mailbox.Delivery) {
    i in w.box && !Mailbox.SameIntent(w.box[i], d)
  }

  /** The intents in the given order, up to the first that collides. */
  function Intents(w: World, make: Intent -> Mailbox.Delivery, exits: set<nat>, order: seq<nat>): seq<Write> {
    if order == [] then []
    else
      var i := IntentFor(exits, order[0]);
      if Collides(w, i, make(i)) then [] else [Enqueue(i, make(i))] + Intents(w, make, exits, order[1..])
  }

  predicate AnyCollision(w: World, make: Intent -> Mailbox.Delivery, exits: set<nat>, order: seq<nat>) {
    exists k :: 0 <= k < |order| && Collides(w, IntentFor(exits, order[k]), make(IntentFor(exits, order[k])))
  }

  /** One sweep: all intents in ascending order, then the cache; a collision ends it without the cache. */
  ghost function SweepWrites(
      make: Intent -> Mailbox.Delivery, ask: (nat, Validator) -> Response, w: World): seq<Write> {
    var c := Load(w.file);
    match Swept(ask, c, 1)
    case None => []
    case Some(t) =>
      var exits := Compose(c) - Compose(t);
      var order := InOrder(Refreshed(ask, c, 1) + exits);
      Intents(w, make, exits, order)
      + if AnyCollision(w, make, exits, order) then [] else [Save(State(t, At(t, 1).validator))]
  }

  lemma {:induction false} IntentsAre(w: World, make: Intent -> Mailbox.Delivery, exits: set<nat>, order: seq<nat>)
    ensures forall x :: x in Intents(w, make, exits, order) ==> x.Enqueue? && !Collides(w, x.intent, x.delivery)
    ensures !AnyCollision(w, make, exits, order) ==>
              forall n :: n in order ==> Enqueue(IntentFor(exits, n), make(IntentFor(exits, n))) in Intents(w, make,
                  exits, order)
    decreases |order|
  {
    if order != [] {
      IntentsAre(w, make, exits, order[1..]);
      if AnyCollision(w, make, exits, order[1..]) {
        var k :| 0 <= k < |order[1..]| && Collides(w, IntentFor(exits, order[1..][k]),
            make(IntentFor(exits, order[1..][k])));
        assert order[k + 1] == order[1..][k];
      }
      assert forall n :: n in order <==> n == order[0] || n in order[1..];
    }
  }

  lemma {:induction false} EnqueuesAnnounce(w: World, xs: seq<Write>)
    requires forall x :: x in xs ==> x.Enqueue?
    ensures ApplyAll(w, xs).file == w.file
    ensures w.announced <= ApplyAll(w, xs).announced
    ensures forall x :: x in xs && x.intent.change.Exited? ==> x.intent.number in ApplyAll(w, xs).announced
    ensures forall x :: x in xs ==> x.intent in ApplyAll(w, xs).box
    ensures forall i :: i in w.box ==> i in ApplyAll(w, xs).box && ApplyAll(w, xs).box[i] == w.box[i]
    decreases |xs|
  {
    if xs != [] {
      EnqueuesAnnounce(Apply(w, xs[0]), xs[1..]);
      assert forall x :: x in xs <==> x == xs[0] || x in xs[1..];
    }
  }

  lemma {:induction false} ApplyConcat(w: World, a: seq<Write>, b: seq<Write>)
    ensures ApplyAll(w, a + b) == ApplyAll(ApplyAll(w, a), b)
    decreases |a|
  {
    if a == [] {
      assert a + b == b;
    } else {
      assert (a + b)[0] == a[0] && (a + b)[1..] == a[1..] + b;
      ApplyConcat(Apply(w, a[0]), a[1..], b);
    }
  }

  function Crash(w: World, xs: seq<Write>, k: nat): World { ApplyAll(w, if k <= |xs| then xs[..k] else xs) }

  /** At every crash point: if the cache has changed, every Issue that left the collection was
      announced first, and its intent is in the mailbox. */
  lemma ExitsAnnouncedFirst(make: Intent -> Mailbox.Delivery, ask: (nat, Validator) -> Response, w: World, k: nat)
    ensures var t := Crash(w, SweepWrites(make, ask, w), k);
            && w.announced <= t.announced
            && (t.file == w.file
                || forall n :: n in Compose(Load(w.file)) - Compose(Load(t.file)) ==>
                     n in t.announced && Intent(n, Exited) in t.box)
  {
    hide Swept, Refreshed, Load, Compose, Intents, AnyCollision;
    var c := Load(w.file);
    if Swept(ask, c, 1).Some? {
      var t := Swept(ask, c, 1).value;
      var exits := Compose(c) - Compose(t);
      var order := InOrder(Refreshed(ask, c, 1) + exits);
      var xs := Intents(w, make, exits, order);
      var all := SweepWrites(make, ask, w);
      IntentsAre(w, make, exits, order);
      SavedIsLoaded(t, At(t, 1).validator);
      if k <= |xs| {
        assert (if k <= |all| then all[..k] else all) == xs[..k];
        EnqueuesAnnounce(w, xs[..k]);
      } else {
        assert (if k <= |all| then all[..k] else all) == all;
        EnqueuesAnnounce(w, xs);
        SaveLast(w, xs, all);
        if !AnyCollision(w, make, exits, order) {
          forall n | n in exits ensures n in ApplyAll(w, xs).announced && Intent(n, Exited) in ApplyAll(w, xs).box {
            assert n in order;
            assert Enqueue(Intent(n, Exited), make(Intent(n, Exited))) in xs;
          }
        }
      }
    }
  }

  /** A saved cache with pages is what the next sweep loads. */
  lemma SavedIsLoaded(t: Cache, legacy: Validator)
    ensures Compose(Load(Some(State(t, legacy)))) == Compose(t)
  {
  }

  lemma SaveLast(w: World, xs: seq<Write>, all: seq<Write>)
    requires all == xs || (|all| == |xs| + 1 && all[..|xs|] == xs && all[|xs|].Save?)
    ensures var t, m := ApplyAll(w, all), ApplyAll(w, xs);
            t.announced == m.announced && t.box == m.box && (all == xs ==> t.file == m.file)
            && (all != xs ==> t.file == Some(all[|xs|].state))
  {
    if all != xs {
      var last := all[|xs|];
      assert all == xs + [last];
      ApplyConcat(w, xs, [last]);
      assert [last][1..] == [];
      assert ApplyAll(ApplyAll(w, xs), [last]) == ApplyAll(Apply(ApplyAll(w, xs), last), []);
    }
  }

  /** One sweep with what it was told, stopped after `writes` of its writes. */
  datatype Attempt = Attempt(ask: (nat, Validator) -> Response, writes: nat)

  ghost function Step(make: Intent -> Mailbox.Delivery, w: World, a: Attempt): World {
    Crash(w, SweepWrites(make, a.ask, w), a.writes)
  }

  /** Between sweeps the repository acknowledges intents it has handled. */
  datatype Event = Sweeping(attempt: Attempt) | Acknowledged(intents: set<Intent>)

  ghost function After(make: Intent -> Mailbox.Delivery, w: World, e: Event): World {
    match e
    case Sweeping(a) => Step(make, w, a)
    case Acknowledged(intents) => w.(box := w.box - intents)
  }

  ghost function Run(make: Intent -> Mailbox.Delivery, w: World, run: seq<Event>): World
    decreases |run|
  {
    if run == [] then w else Run(make, After(make, w, run[0]), run[1..])
  }

  /** One event keeps what was announced, and announces whoever leaves the collection. */
  lemma EventAnnounces(make: Intent -> Mailbox.Delivery, w: World, e: Event)
    ensures var t := After(make, w, e);
            w.announced <= t.announced && Compose(Load(w.file)) - Compose(Load(t.file)) <= t.announced
  {
    hide SweepWrites, Load, Compose;
    if e.Sweeping? { ExitsAnnouncedFirst(make, e.attempt.ask, w, e.attempt.writes); }
  }

  /** Over every run of sweeps, crashed anywhere, and acknowledgements: an Issue that was in the
      collection is still in it or has been announced as gone. */
  lemma {:induction false} NoExitIsLost(make: Intent -> Mailbox.Delivery, w: World, run: seq<Event>, n: nat)
    requires n in Compose(Load(w.file))
    ensures n in Compose(Load(Run(make, w, run).file)) || n in Run(make, w, run).announced
    decreases |run|
  {
    hide After, Load, Compose;
    if run != [] {
      var t := After(make, w, run[0]);
      EventAnnounces(make, w, run[0]);
      if n in Compose(Load(t.file)) {
        NoExitIsLost(make, t, run[1..], n);
      } else {
        AnnouncedStays(make, t, run[1..], n);
      }
    }
  }

  lemma {:induction false} AnnouncedStays(make: Intent -> Mailbox.Delivery, w: World, run: seq<Event>, n: nat)
    requires n in w.announced
    ensures n in Run(make, w, run).announced
    decreases |run|
  {
    hide After, Load, Compose;
    if run != [] {
      EventAnnounces(make, w, run[0]);
      AnnouncedStays(make, After(make, w, run[0]), run[1..], n);
    }
  }

  // ---------------------------------------------------------------- agreement over runs

  /** What a sweep was told is true of some state of the collection. */
  ghost predicate Honest(shown: (nat, Validator) -> Body, e: Event) {
    e.Sweeping? ==> exists current :: Truthful(shown, current, e.attempt.ask)
  }

  /** A sweep told the truth leaves a good cache file, at whatever write it stops. */
  lemma EventKeepsGood(shown: (nat, Validator) -> Body, make: Intent -> Mailbox.Delivery, w: World, e: Event)
    requires Honest(shown, e) && FileGood(shown, w.file)
    ensures FileGood(shown, After(make, w, e).file)
  {
    hide Swept, Refreshed, Load, Compose, Intents, AnyCollision, Truthful, CacheGood;
    if e.Sweeping? && Swept(e.attempt.ask, Load(w.file), 1).Some? {
      var ask, k, c := e.attempt.ask, e.attempt.writes, Load(w.file);
      var current :| Truthful(shown, current, ask);
      LoadIsGood(shown, w.file);
      SweepAgrees(shown, current, ask, c);
      var t := Swept(ask, c, 1).value;
      var exits := Compose(c) - Compose(t);
      var order := InOrder(Refreshed(ask, c, 1) + exits);
      var xs, all := Intents(w, make, exits, order), SweepWrites(make, ask, w);
      IntentsAre(w, make, exits, order);
      if k <= |xs| {
        EnqueuesAnnounce(w, xs[..k]);
        assert (if k <= |all| then all[..k] else all) == xs[..k];
      } else {
        EnqueuesAnnounce(w, xs);
        SaveLast(w, xs, all);
        assert (if k <= |all| then all[..k] else all) == all;
        assert all != xs ==> all[|xs|] == Save(State(t, At(t, 1).validator));
      }
    }
  }

  /** However many sweeps came before, stopped at whatever write, a sweep told the truth ends with exactly the
      pages and Issues of an unconditional fetch. */
  lemma {:induction false} RunAgrees(
      shown: (nat, Validator) -> Body, make: Intent -> Mailbox.Delivery, w: World, run: seq<Event>,
      current: nat -> Body, ask: (nat, Validator) -> Response)
    requires FileGood(shown, w.file) && (forall k :: 0 <= k < |run| ==> Honest(shown, run[k]))
    requires Truthful(shown, current, ask) && Swept(ask, Load(Run(make, w, run).file), 1).Some?
    ensures var t := Swept(ask, Load(Run(make, w, run).file), 1).value;
            && Bodies(t) == Fetched(current) && Compose(t) == FetchedIssues(current)
            && forall order :: Composed(Bodies(t), order, map[]) == Composed(Fetched(current), order, map[])
    decreases |run|
  {
    hide Swept, Load, Compose, Truthful, CacheGood, After, Honest, FileGood;
    if run == [] {
      LoadIsGood(shown, w.file);
      SweepAgrees(shown, current, ask, Load(w.file));
    } else {
      EventKeepsGood(shown, make, w, run[0]);
      RunAgrees(shown, make, After(make, w, run[0]), run[1..], current, ask);
    }
  }

  // ---------------------------------------------------------------- what a sweep announces

  lemma {:induction false} IntentsAdd(
      w: World, make: Intent -> Mailbox.Delivery, exits: set<nat>, order: seq<nat>, v: World)
    requires forall i :: i in v.box ==> i in w.box || v.box[i] == make(i)
    requires forall i :: i in w.box ==> i in v.box
    ensures var t := ApplyAll(v, Intents(w, make, exits, order));
            forall i :: i in t.box && i !in v.box ==>
                          i.number in order && i == IntentFor(exits, i.number) && t.box[i] == make(i)
    decreases |order|
  {
    if order != [] {
      var i := IntentFor(exits, order[0]);
      if !Collides(w, i, make(i)) {
        var xs := [Enqueue(i, make(i))] + Intents(w, make, exits, order[1..]);
        assert xs[1..] == Intents(w, make, exits, order[1..]);
        var v1 := Apply(v, Enqueue(i, make(i)));
        IntentsAdd(w, make, exits, order[1..], v1);
        IntentsAre(w, make, exits, order[1..]);
        EnqueuesAnnounce(v1, Intents(w, make, exits, order[1..]));
        assert forall n :: n in order <==> n == order[0] || n in order[1..];
      }
    }
  }

  /** A sweep told the truth that meets no collision announces every Issue on a page that changed as to be
      reconciled and every Issue that is on no page any more as gone, and announces nothing else. */
  lemma ChangesAnnounced(
      shown: (nat, Validator) -> Body, current: nat -> Body, make: Intent -> Mailbox.Delivery,
      ask: (nat, Validator) -> Response, w: World)
    requires Truthful(shown, current, ask) && FileGood(shown, w.file) && Swept(ask, Load(w.file), 1).Some?
    requires var c := Load(w.file);
             var exits := Compose(c) - FetchedIssues(current);
             !AnyCollision(w, make, exits, InOrder(Refreshed(ask, c, 1) + exits))
    ensures var c, t := Load(w.file), ApplyAll(w, SweepWrites(make, ask, w));
            && t.file.Some? && Bodies(t.file.value.pages) == Fetched(current)
            && (forall p, n :: p in Fetched(current) && Changed(current, c, p) && n in current(p).Numbers() ==>
                  Intent(n, Reconciled) in t.box)
            && (forall n :: n in Compose(c) && n !in FetchedIssues(current) ==> Intent(n, Exited) in t.box)
            && (forall i :: i in t.box && i !in w.box ==>
                  && t.box[i] == make(i)
                  && if i.change.Exited? then i.number in Compose(c) && i.number !in FetchedIssues(current)
                     else i.number in FetchedIssues(current))
  {
    hide Swept, Refreshed, Load, Compose, Intents, AnyCollision, Truthful, CacheGood, Fetched, FetchedIssues, Bodies,
         Changed, ListedFrom;
    var c := Load(w.file);
    LoadIsGood(shown, w.file);
    SweepAgrees(shown, current, ask, c);
    RefreshesChanges(shown, current, ask, c, 1);
    var t := Swept(ask, c, 1).value;
    var exits := Compose(c) - FetchedIssues(current);
    var refreshed := Refreshed(ask, c, 1);
    var order := InOrder(refreshed + exits);
    var xs := Intents(w, make, exits, order);
    var last := Save(State(t, At(t, 1).validator));
    assert SweepWrites(make, ask, w) == xs + [last];
    ApplyConcat(w, xs, [last]);
    SaveLast(w, xs, xs + [last]);
    IntentsAre(w, make, exits, order);
    EnqueuesAnnounce(w, xs);
    IntentsAdd(w, make, exits, order, w);
    FetchedAreListed(current);
    forall p, n | p in Fetched(current) && Changed(current, c, p) && n in current(p).Numbers()
      ensures Intent(n, Reconciled) in ApplyAll(w, xs).box {
      assert n in refreshed && n in order && n !in exits;
      assert Enqueue(IntentFor(exits, n), make(IntentFor(exits, n))) in xs;
    }
    forall n | n in exits ensures Intent(n, Exited) in ApplyAll(w, xs).box {
      assert n in order;
      assert Enqueue(IntentFor(exits, n), make(IntentFor(exits, n))) in xs;
    }
  }

  lemma FetchedAreListed(current: nat -> Body)
    ensures forall p :: p in Fetched(current) <==> 1 <= p <= LastFetched(current, 1)
    ensures forall p, n :: p in Fetched(current) && n in current(p).Numbers() ==> n in FetchedIssues(current)
    ensures forall n :: ListedFrom(current, 1, LastFetched(current, 1), n) ==> n in FetchedIssues(current)
  {
    LastFetchedInRange(current, 1);
    forall p, n | p in Fetched(current) && n in current(p).Numbers() ensures n in FetchedIssues(current) {
      assert n in Fetched(current)[p].Numbers();
    }
    forall n | ListedFrom(current, 1, LastFetched(current, 1), n) ensures n in FetchedIssues(current) {
      var p :| 1 <= p <= LastFetched(current, 1) && n in current(p).Numbers();
      assert p in Fetched(current) && n in Fetched(current)[p].Numbers();
    }
  }

  // ---------------------------------------------------------------- composing the pages

  lemma {:induction false} OverlayKeys(m: map<nat, Listed>, issues: seq<Listed>)
    ensures Overlay(m, issues).Keys == m.Keys + (set i | i in issues :: i.number)
    decreases |issues|
  {
    if issues != [] {
      OverlayKeys(m[issues[0].number := issues[0]], issues[1..]);
      assert forall i :: i in issues <==> i == issues[0] || i in issues[1..];
    }
  }

  /** One more page or Issue at the end. */
  lemma {:induction false} OverlayLast(m: map<nat, Listed>, issues: seq<Listed>, i: Listed)
    ensures Overlay(m, issues + [i]) == Overlay(m, issues)[i.number := i]
    decreases |issues|
  {
    if issues == [] {
      assert [i][1..] == [];
    } else {
      assert (issues + [i])[0] == issues[0] && (issues + [i])[1..] == issues[1..] + [i];
      OverlayLast(m[issues[0].number := issues[0]], issues[1..], i);
    }
  }

  lemma {:induction false} ComposedLast(pages: map<nat, Body>, order: seq<nat>, m: map<nat, Listed>, p: nat)
    requires p in pages
    ensures Composed(pages, order + [p], m) == Overlay(Composed(pages, order, m), pages[p].issues)
    decreases |order|
  {
    if order == [] {
      assert ([] + [p])[0] == p && ([] + [p])[1..] == [];
    } else {
      assert (order + [p])[0] == order[0] && (order + [p])[1..] == order[1..] + [p];
      ComposedLast(pages, order[1..], if order[0] in pages then Overlay(m, pages[order[0]].issues) else m, p);
    }
  }

  // ---------------------------------------------------------------- the sweep as a loop

  class Sweeper {
    var file: Option<State>
    var box: map<Intent, Mailbox.Delivery>
    var budget: nat
    ghost var announced: set<nat>

    ghost function View(): World
      reads this
    {
      World(file, box, announced)
    }

    constructor (budget: nat)
      ensures View() == World(None, map[], {}) && this.budget == budget
    {
      file, box, announced, this.budget := None, map[], {}, budget;
    }

    /** Asks for one page after another, renewing or replacing the cached copies, until a short page. */
    static method FetchPages(ask: (nat, Validator) -> Response, cache: Cache)
      returns (pages: Option<Cache>, targets: set<nat>)
      ensures pages == Swept(ask, cache, 1)
      ensures pages.Some? ==> targets == Refreshed(ask, cache, 1)
    {
      var c: Cache := cache;
      targets := {};
      var page: nat := 1;
      while page <= LAST_PAGE
        invariant 1 <= page <= LAST_PAGE + 1
        invariant Swept(ask, c, page) == Swept(ask, cache, 1)
        invariant targets + Refreshed(ask, c, page) == Refreshed(ask, cache, 1)
        decreases LAST_PAGE + 1 - page
      {
        var cached := At(c, page);
        var r := ask(page, cached.validator);
        if r.Failure? { return None, targets; }
        if r.NotModified? {
          cached := cached.(validator := cached.validator.Renewed(r.validator));
          c := c[page := cached];
        } else if r.Success? {
          cached := Page(r.validator, r.body);
          c := c[page := cached];
          targets := targets + r.body.Numbers();
        }
        if cached.body.count < PAGE_SIZE {
          return Some(WithoutStale(c, page)), targets;
        }
        page := page + 1;
      }
      return Some(c), targets;
    }

    /** Visits the pages in some order and keeps the last Issue listed under each number. */
    static method ComposeIssues(pages: Cache) returns (result: map<nat, Listed>, ghost order: seq<nat>)
      ensures forall p :: p in order <==> p in pages
      ensures result == Composed(Bodies(pages), order, map[])
      ensures result.Keys == Compose(pages)
    {
      result, order := map[], [];
      var todo := pages.Keys;
      while todo != {}
        invariant todo <= pages.Keys
        invariant forall p :: p in order <==> p in pages && p !in todo
        invariant result == Composed(Bodies(pages), order, map[])
        invariant forall n :: n in result <==> exists p :: p in pages && p !in todo && n in pages[p].body.Numbers()
      {
        var p :| p in todo;
        todo := todo - {p};
        var issues := pages[p].body.issues;
        ghost var before := result;
        for k := 0 to |issues|
          invariant result == Overlay(before, issues[..k])
        {
          assert issues[..k + 1] == issues[..k] + [issues[k]];
          OverlayLast(before, issues[..k], issues[k]);
          result := result[issues[k].number := issues[k]];
        }
        assert issues[..|issues|] == issues;
        OverlayKeys(before, issues);
        ComposedLast(Bodies(pages), order, map[], p);
        order := order + [p];
      }
    }

    method Do(x: Write)
      modifies this
      ensures View() == Crash(old(View()), [x], old(budget)) && budget == Left(old(budget), 1)
    {
      assert [x][..1] == [x] && [x][..0] == [] && [x][1..] == [];
      assert ApplyAll(View(), [x]) == ApplyAll(Apply(View(), x), []);
      if budget == 0 { return; }
      budget := budget - 1;
      match x {
        case Enqueue(i, d) =>
          if i !in box { box := box[i := d]; }
          if i.change.Exited? { announced := announced + {i.number}; }
        case Save(s) => file := Some(s);
      }
    }

    /** A set of Issue numbers, sorted. */
    static method Numbers(targets: set<nat>) returns (order: seq<nat>)
      ensures order == InOrder(targets)
    {
      order := [];
      var todo := targets;
      while todo != {}
        invariant todo <= targets && NoRepeats(order)
        invariant forall n :: n in order <==> n in targets && n !in todo
      {
        var n :| n in todo;
        todo := todo - {n};
        order := order + [n];
      }
      ListingInOrder(order, targets);
      order := Sort(order, ByValueOf());
    }

    /** Enqueues the intents in order, stopping at the first that collides. */
    method EnqueueAll(make: Intent -> Mailbox.Delivery, exits: set<nat>, order: seq<nat>) returns (ok: bool)
      modifies this
      ensures View() == Crash(old(View()), Intents(old(View()), make, exits, order), old(budget))
      ensures budget == Left(old(budget), |Intents(old(View()), make, exits, order)|)
      ensures ok <==> !AnyCollision(old(View()), make, exits, order)
    {
      hide Crash, Intents, Collides, IntentFor;
      ghost var w, had := View(), budget;
      var before := box;
      ghost var done: seq<Write> := [];
      CrashNothing(w, had);
      NoIntents(w, make, exits, order);
      for k := 0 to |order|
        invariant View() == Crash(w, done, had) && budget == Left(had, |done|) && before == w.box
        invariant done + Intents(w, make, exits, order[k..]) == Intents(w, make, exits, order)
        invariant forall j :: 0 <= j < k ==> !Collides(w, IntentFor(exits, order[j]), make(IntentFor(exits, order[j])))
      {
        var i := IntentFor(exits, order[k]);
        IntentStep(w, make, exits, order, k);
        if i in before && !Mailbox.SameIntent(before[i], make(i)) {
          assert done + [] == done;
          return false;
        }
        CrashConcat(w, had, done, [Enqueue(i, make(i))]);
        Do(Enqueue(i, make(i)));
        assert done + ([Enqueue(i, make(i))] + Intents(w, make, exits, order[k + 1..]))
            == (done + [Enqueue(i, make(i))]) + Intents(w, make, exits, order[k + 1..]);
        done := done + [Enqueue(i, make(i))];
      }
      assert done + [] == done;
      return true;
    }

    method SweepOnce(make: Intent -> Mailbox.Delivery, ask: (nat, Validator) -> Response)
      modifies this
      ensures View() == Step(make, old(View()), Attempt(ask, old(budget)))
    {
      hide Swept, Refreshed, Intents, AnyCollision, Compose, Composed;
      ghost var w, had := View(), budget;
      CrashNothing(w, had);
      var before := Load(file);
      var pages, targets := FetchPages(ask, before);
      if pages.None? { return; }
      var previous, _ := ComposeIssues(before);
      var present, _ := ComposeIssues(pages.value);
      var exits := previous.Keys - present.Keys;
      var order := Numbers(targets + exits);
      ghost var xs := Intents(w, make, exits, order);
      var save := Save(State(pages.value, At(pages.value, 1).validator));
      CrashConcat(w, had, xs, if AnyCollision(w, make, exits, order) then [] else [save]);
      var ok := EnqueueAll(make, exits, order);
      CrashNothing(View(), budget);
      if ok { Do(save); }
    }
  }

  lemma NoIntents(w: World, make: Intent -> Mailbox.Delivery, exits: set<nat>, order: seq<nat>)
    ensures order[0..] == order && order[|order|..] == [] && Intents(w, make, exits, []) == []
  {
  }

  lemma IntentStep(w: World, make: Intent -> Mailbox.Delivery, exits: set<nat>, order: seq<nat>, k: nat)
    requires k < |order|
    ensures var i := IntentFor(exits, order[k]);
            && (Collides(w, i, make(i)) <==> i in w.box && !Mailbox.SameIntent(w.box[i], make(i)))
            && Intents(w, make, exits, order[k..]) ==
               if Collides(w, i, make(i)) then [] else [Enqueue(i, make(i))] + Intents(w, make, exits, order[k + 1..])
  {
    assert order[k..][0] == order[k] && order[k..][1..] == order[k + 1..];
  }

  function Left(had: nat, used: nat): nat { if used <= had then had - used else 0 }

  lemma CrashNothing(w: World, had: nat)
    ensures Crash(w, [], had) == w
  {
  }

  lemma CrashConcat(w: World, had: nat, a: seq<Write>, b: seq<Write>)
    ensures Crash(w, a + b, had) == Crash(Crash(w, a, had), b, Left(had, |a|))
  {
    if had < |a| {
      assert (a + b)[..had] == a[..had];
    } else if had <= |a + b| {
      assert (a + b)[..had] == a + b[..had - |a|] && a[..|a|] == a;
      ApplyConcat(w, a, b[..had - |a|]);
    } else {
      ApplyConcat(w, a, b);
    }
    assert b[..0] == [] && a[..|a|] == a;
  }
}
