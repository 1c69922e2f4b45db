/**
 The whole: the aggregate kept in the crash-safe store.  What is proved of runs of
 updates holds of what the files mean after any crashes.
 */
module Repository {
  import opened Wrappers
  import opened EventLog
  import opened Lifecycle
  import opened Aggregate
  import opened ExecutionSlot
  import Disk
  import Recovery
  import Durability
  import Atomicity
  import Boundary
  import Store = Update
  import Authority
  import Fencing
  import Suspensions
  import Conversations
  import Answers

  // ---------------------------------------------------------------- normalisation of old snapshots

  const LEGACY_REASON: Id := 4

  /** Recovers one running Issue without a worker: back to launching when the evidence names the
      source of the launch, otherwise blocked for the operator. */
  function NormalizeOne(source: (Aggregate, nat) -> Option<Status>, s: Aggregate, n: nat): Aggregate {
    if n !in s.issues || !s.issues[n].status.Running? || s.issues[n].worker != 0 then s
    else
      var i := s.issues[n];
      match source(s, n)
      case Some(from) => WithIssue(s, n, Move(i, Launching).(launchSource := from))
      case None =>
        var checkpoint := if i.continuation.Some? then i.continuation.value.id else 0;
        var p := Suspension(n + 1, false, Quarantined, LEGACY_REASON, Ambiguous, LEGACY_REASON, [], [Cancel],
            checkpoint, 1, 0, None);
        var j := Move(i, Blocked).(worker := 0, failureKind := LEGACY_REASON, lastError := LEGACY_REASON,
            retryAfter := 0,
                                   suspension := Some(p));
        WithIssue(s, n, j).(active := if s.active.Some? && s.active.value.issue == n then None else s.active)
  }

  function Normalize(source: (Aggregate, nat) -> Option<Status>, s: Aggregate, order: seq<nat>): Aggregate
    decreases |order|
  {
    if order == [] then s else Normalize(source, NormalizeOne(source, s, order[0]), order[1..])
  }

  /** Normalisation leaves every valid aggregate as it is, whatever the launch evidence and the
      order of the Issues. */
  lemma {:induction false} ValidIsNormal(
      rest: Aggregate -> bool, source: (Aggregate, nat) -> Option<Status>, s: Aggregate, order: seq<nat>)
    requires Valid(rest, s)
    ensures Normalize(source, s, order) == s
    decreases |order|
  {
    if order != [] {
      assert order[0] in s.issues ==> IssueValid(s.issues[order[0]]);
      ValidIsNormal(rest, source, s, order[1..]);
    }
  }

  /** A running Issue without a worker. */
  predicate Abandoned(s: Aggregate, n: nat) {
    n in s.issues && s.issues[n].status.Running? && s.issues[n].worker == 0
  }

  /** What becomes of it: with evidence of its launch it is launching again from there and keeps its authority;
      without, it is blocked, gives its own authority back, and waits, held back, for the operator to cancel.  No
      other Issue is touched. */
  lemma AbandonedIsRecovered(source: (Aggregate, nat) -> Option<Status>, s: Aggregate, n: nat)
    ensures !Abandoned(s, n) ==> NormalizeOne(source, s, n) == s
    ensures Abandoned(s, n) ==>
              var t, i := NormalizeOne(source, s, n), s.issues[n];
              && n in t.issues && t.issues - {n} == s.issues - {n} && t == s.(issues := t.issues, active := t.active)
              && var j := t.issues[n];
              && j.runId == i.runId && j.generation == i.generation && j.continuation == i.continuation
              && j.answers == i.answers && j.workspace == i.workspace && j.worker == 0
              && match source(s, n)
                 case Some(from) => j.status.Launching? && j.launchSource == from && t.active == s.active
                 case None =>
                   && j.status.Blocked? && (t.active.Some? ==> t.active == s.active && t.active.value.issue != n)
                   && (s.active.Some? && s.active.value.issue != n ==> t.active == s.active)
                   && j.suspension.Some? && j.suspension.value.status.Quarantined?
                   && j.suspension.value.recoverability.Ambiguous? && j.suspension.value.actions == [Cancel]
                   && j.suspension.value.checkpointId == (if i.continuation.Some? then i.continuation.value.id else 0)
  {
  }

  lemma OthersStay(source: (Aggregate, nat) -> Option<Status>, s: Aggregate, n: nat, m: nat)
    ensures !Abandoned(NormalizeOne(source, s, n), n)
    ensures Abandoned(NormalizeOne(source, s, n), m) ==> Abandoned(s, m)
    ensures NormalizeOne(source, s, n).issues.Keys == s.issues.Keys
  {
  }

  /** After normalisation, in whatever order, no running Issue that was visited is without a worker. */
  lemma {:induction false} NoneStaysAbandoned(
      source: (Aggregate, nat) -> Option<Status>, s: Aggregate, order: seq<nat>, n: nat)
    ensures Abandoned(Normalize(source, s, order), n) ==> Abandoned(s, n) && n !in order
    ensures Normalize(source, s, order).issues.Keys == s.issues.Keys
    decreases |order|
  {
    hide NormalizeOne, Abandoned;
    if order != [] {
      var t := NormalizeOne(source, s, order[0]);
      OthersStay(source, s, order[0], n);
      NoneStaysAbandoned(source, t, order[1..], n);
    }
  }

  // ---------------------------------------------------------------- the store of aggregates

  const EMPTY := Aggregate(map[], map[], map[], map[], None, 0)

  /** The kind and payload of an event. */
  datatype Noted = Noted(kind: string, payload: seq<Byte>)

  /** What the store needs to know of aggregates, and what the event of each update says. */
  datatype Setting = Setting(
    codec: Codec, repo: string, rest: Aggregate -> bool,
    source: (Aggregate, nat) -> Option<Status>, order: Aggregate -> seq<nat>, marker: string -> Aggregate,
    note: Recovery.Note -> seq<Byte>, run: Authority.Update -> string,
    record: (Aggregate, Authority.Update) -> Noted)
  {
    function Env(): Recovery.Env<Aggregate> {
      Recovery.Env(
        codec, repo,
        (s: Disk.Snapshot<Aggregate>) =>
          if s.version != CURRENT_VERSION then Incompatible else if Valid(rest, s.body) then Fine else Invalid,
        (s: Disk.Snapshot<Aggregate>) => s.(body := Normalize(source, s.body, order(s.body))),
        EMPTY, marker, note)
    }
  }

  /** The store's assumption about its normalisation holds for aggregates. */
  lemma SettingIsSound(w: Setting)
    requires w.codec.Faithful()
    ensures w.Env().Sound()
  {
    hide Normalize, Valid;
    forall s: Disk.Snapshot<Aggregate> | w.Env().validate(s) == Fine
        ensures s.version == CURRENT_VERSION && w.Env().normalize(s) == s {
      ValidIsNormal(w.rest, w.source, s.body, w.order(s.body));
    }
  }

  /** An update of the aggregate as a request to the store. */
  ghost function RequestFor(w: Setting, u: Authority.Update): Store.Request<Aggregate> {
    Store.Request(
      u.issue, w.run(u),
      (s: Aggregate) =>
        match Authority.Commit(w.rest, s, u)
        case None => None
        case Some(t) => Some(Store.Edited(t, w.record(s, u).kind, w.record(s, u).payload)))
  }

  ghost function Requests(w: Setting, us: seq<Authority.Update>): seq<Store.Request<Aggregate>> {
    seq(|us|, k requires 0 <= k < |us| => RequestFor(w, us[k]))
  }

  /** The atomic store runs the aggregate's updates one after the other. */
  lemma {:induction false} AtomicRunIsUpdates(w: Setting, c: Store.Contents<Aggregate>, us: seq<Authority.Update>)
    ensures Store.AtomicRun(c, Requests(w, us)).body == Fencing.After(w.rest, c.body, us)
    decreases |us|
  {
    hide Authority.Commit;
    if us != [] {
      var rs := Requests(w, us);
      assert rs[1..] == Requests(w, us[1..]);
      AtomicRunIsUpdates(w, Store.AtomicStep(c, rs[0]), us[1..]);
    }
  }

  /** Each update of a run is an update of the aggregate. */
  ghost predicate RunOf(w: Setting, run: seq<Store.Attempt<Aggregate>>, us: seq<Authority.Update>) {
    |us| == |run| && forall k :: 0 <= k < |run| && run[k].call.Change? ==> run[k].call.request == RequestFor(w, us[k])
  }

  /** The updates of a run that take effect. */
  ghost function Effective(
      w: Setting, d: Disk.Files<Aggregate>, run: seq<Store.Attempt<Aggregate>>,
      us: seq<Authority.Update>): seq<Authority.Update>
    requires w.codec.Faithful() && Store.Unstranded(w.Env(), d, run) && RunOf(w, run, us)
    decreases |run|
  {
    if run == [] then []
    else
      var rest := Effective(w, Store.Attempted(w.Env(), d, run[0]), run[1..], us[1..]);
      if Store.Effect(w.Env(), d, run[0]) == [] then rest else [us[0]] + rest
  }

  lemma RequestsCons(w: Setting, u: Authority.Update, us: seq<Authority.Update>)
    ensures Requests(w, [u] + us) == [RequestFor(w, u)] + Requests(w, us)
  {
    hide RequestFor;
  }

  lemma EffectIsRequest(w: Setting, d: Disk.Files<Aggregate>, a: Store.Attempt<Aggregate>, u: Authority.Update)
    requires Durability.Durable(w.Env(), d) && (a.call.Change? ==> a.call.request == RequestFor(w, u))
    ensures Store.Effect(w.Env(), d, a) == [] || Store.Effect(w.Env(), d, a) == [RequestFor(w, u)]
  {
    hide Durability.Durable, Store.Commits, RequestFor;
  }

  lemma {:induction false} EffectsAreUpdates(
      w: Setting, d: Disk.Files<Aggregate>, run: seq<Store.Attempt<Aggregate>>, us: seq<Authority.Update>)
    requires w.codec.Faithful() && w.Env().Sound() && Store.Unstranded(w.Env(), d, run) && RunOf(w, run, us)
    ensures Store.Effects(w.Env(), d, run) == Requests(w, Effective(w, d, run, us))
    decreases |run|
  {
    hide Durability.Durable, Store.Attempted, Store.Commits, RequestFor, Requests, Store.Effect, Durability.Target,
         Store.Holds;
    if run == [] {
      assert Requests(w, []) == [] by { NoRequests(w); }
    } else {
      var d1 := Store.Attempted(w.Env(), d, run[0]);
      EffectIsRequest(w, d, run[0], us[0]);
      EffectsAreUpdates(w, d1, run[1..], us[1..]);
      var rest := Effective(w, d1, run[1..], us[1..]);
      RequestsCons(w, us[0], rest);
      assert [] + Requests(w, rest) == Requests(w, rest);
    }
  }

  lemma NoRequests(w: Setting)
    ensures Requests(w, []) == []
  {
  }

  /** The aggregate a directory means. */
  ghost function Body(w: Setting, d: Disk.Files<Aggregate>): Aggregate
    requires Durability.Durable(w.Env(), d)
  {
    Store.ContentsOf(w.Env(), Durability.Target(w.Env(), d)).body
  }

  /** After any run of calls with any crashes outside the gaps, the directory means the aggregate that the
      effective updates lead to. */
  lemma CrashesKeepUpdates(
      w: Setting, d: Disk.Files<Aggregate>, run: seq<Store.Attempt<Aggregate>>, us: seq<Authority.Update>)
    requires w.codec.Faithful() && Store.Unstranded(w.Env(), d, run) && RunOf(w, run, us)
    ensures w.Env().Sound() && Durability.Durable(w.Env(), Store.Run(w.Env(), d, run))
    ensures Body(w, Store.Run(w.Env(), d, run)) == Fencing.After(w.rest, Body(w, d), Effective(w, d, run, us))
  {
    hide Durability.Durable, Durability.Target, Effective, RunOf;
    SettingIsSound(w);
    Store.RunRefines(w.Env(), d, run);
    EffectsAreUpdates(w, d, run, us);
    AtomicRunIsUpdates(w, Store.ContentsOf(w.Env(), Durability.Target(w.Env(), d)), Effective(w, d, run, us));
  }

  /** Fencing survives crashes: an identity that held the slot and later does not never holds it
      again, whatever crashes interrupt either run. */
  lemma FencedAcrossCrashes(
      w: Setting, d: Disk.Files<Aggregate>, before: seq<Store.Attempt<Aggregate>>, us: seq<Authority.Update>,
      after: seq<Store.Attempt<Aggregate>>, vs: seq<Authority.Update>, n: nat, x: Identity)
    requires w.codec.Faithful() && RunOf(w, before, us) && RunOf(w, after, vs)
    requires Store.Unstranded(w.Env(), d, before) && Store.Unstranded(w.Env(), Store.Run(w.Env(), d, before), after)
    requires Valid(w.rest, Body(w, d)) && Owns(Body(w, d), n, x)
    ensures var d1 := Store.Run(w.Env(), d, before);
            && Durability.Durable(w.Env(), d1)
            && Durability.Durable(w.Env(), Store.Run(w.Env(), d1, after))
            && (!Owns(Body(w, d1), n, x) ==> !Owns(Body(w, Store.Run(w.Env(), d1, after)), n, x))
  {
    hide Durability.Durable, Durability.Target, Effective, RunOf, Fencing.After, Valid, Body;
    var d1 := Store.Run(w.Env(), d, before);
    CrashesKeepUpdates(w, d, before, us);
    CrashesKeepUpdates(w, d1, after, vs);
    var first, second := Effective(w, d, before, us), Effective(w, d1, after, vs);
    if !Owns(Body(w, d1), n, x) {
      Fencing.IdentityIsFenced(w.rest, Body(w, d), first, second, n, x);
    }
  }

  /** So do the suspension and delivery invariants. */
  lemma InvariantsAcrossCrashes(
      w: Setting, d: Disk.Files<Aggregate>, run: seq<Store.Attempt<Aggregate>>, us: seq<Authority.Update>)
    requires w.codec.Faithful() && Store.Unstranded(w.Env(), d, run) && RunOf(w, run, us)
    requires Suspensions.AllResolvable(Body(w, d)) && Conversations.DeliveredOnce(Body(w, d))
    ensures Durability.Durable(w.Env(), Store.Run(w.Env(), d, run))
    ensures Suspensions.AllResolvable(Body(w, Store.Run(w.Env(), d, run)))
    ensures Conversations.DeliveredOnce(Body(w, Store.Run(w.Env(), d, run)))
  {
    hide Durability.Durable, Durability.Target, Effective, RunOf, Fencing.After, Body;
    CrashesKeepUpdates(w, d, run, us);
    Suspensions.SuspensionsHold(w.rest, Body(w, d), Effective(w, d, run, us));
    Conversations.AnswersDeliveredOnce(w.rest, Body(w, d), Effective(w, d, run, us));
  }

  /** In the files too the slot is held by exactly the managed Issue that executes. */
  lemma AuthorityAcrossCrashes(
      w: Setting, d: Disk.Files<Aggregate>, run: seq<Store.Attempt<Aggregate>>, us: seq<Authority.Update>)
    requires w.codec.Faithful() && Store.Unstranded(w.Env(), d, run) && RunOf(w, run, us) && Valid(w.rest, Body(w, d))
    ensures Durability.Durable(w.Env(), Store.Run(w.Env(), d, run))
    ensures Fencing.Governed(Body(w, Store.Run(w.Env(), d, run))) && Valid(w.rest, Body(w, Store.Run(w.Env(), d, run)))
  {
    hide Durability.Durable, Durability.Target, Effective, RunOf, Fencing.After, Fencing.Governed, Valid, Body;
    CrashesKeepUpdates(w, d, run, us);
    Fencing.AuthorityFollowsLifecycle(w.rest, Body(w, d), Effective(w, d, run, us));
  }

  /** Of three directories a run of crashing calls passes, the last holds the slot for an Issue as the
      second did, or at a generation above whatever held it in the first. */
  lemma NewHolderAcrossCrashes(
      w: Setting, d: Disk.Files<Aggregate>, before: seq<Store.Attempt<Aggregate>>, us: seq<Authority.Update>,
      after: seq<Store.Attempt<Aggregate>>, vs: seq<Authority.Update>, n: nat, x: Identity)
    requires w.codec.Faithful() && RunOf(w, before, us) && RunOf(w, after, vs)
    requires Store.Unstranded(w.Env(), d, before) && Store.Unstranded(w.Env(), Store.Run(w.Env(), d, before), after)
    requires Valid(w.rest, Body(w, d)) && Owns(Body(w, d), n, x)
    ensures var d1 := Store.Run(w.Env(), d, before);
            && Durability.Durable(w.Env(), d1)
            && Durability.Durable(w.Env(), Store.Run(w.Env(), d1, after))
            && var s, t := Body(w, d1), Body(w, Store.Run(w.Env(), d1, after));
               t.active.Some? && t.active.value.issue == n && !Owns(s, n, t.active.value.Owner()) ==>
                 t.active.value.generation > x.generation
  {
    hide Durability.Durable, Durability.Target, Effective, RunOf, Fencing.After, Fencing.Spent, Valid, Body, Owns;
    var d1 := Store.Run(w.Env(), d, before);
    CrashesKeepUpdates(w, d, before, us);
    CrashesKeepUpdates(w, d1, after, vs);
    Fencing.OwnerIsSpent(w.rest, Body(w, d), n, x);
    Fencing.SpentForever(w.rest, Body(w, d), Effective(w, d, before, us), n, x.generation);
    Fencing.LaterHolderIsNewer(w.rest, Body(w, d1), Effective(w, d1, after, vs), n, x.generation);
  }

  /** A request that stays present in the files keeps the answer it once received. */
  lemma AnswersAcrossCrashes(
      w: Setting, d: Disk.Files<Aggregate>, run: seq<Store.Attempt<Aggregate>>, us: seq<Authority.Update>,
      p: Answers.Place)
    requires w.codec.Faithful() && Store.Unstranded(w.Env(), d, run) && RunOf(w, run, us)
    requires Conversations.Unambiguous(Body(w, d)) && Answers.At(Body(w, d), p)
    requires Conversations.FreshRun(w.rest, Body(w, d), Effective(w, d, run, us))
    requires Conversations.Present(w.rest, Body(w, d), Effective(w, d, run, us), Answers.Get(Body(w, d), p).id)
    ensures Durability.Durable(w.Env(), Store.Run(w.Env(), d, run))
    ensures var t := Body(w, Store.Run(w.Env(), d, run));
            exists q :: Answers.At(t, q) && Conversations.KeepsAnswer(Answers.Get(Body(w, d), p), Answers.Get(t, q))
  {
    hide Durability.Durable, Durability.Target, Effective, RunOf, Fencing.After, Body, Conversations.Unambiguous,
         Conversations.FreshRun, Conversations.Present, Conversations.KeepsAnswer;
    CrashesKeepUpdates(w, d, run, us);
    Conversations.AnswersWrittenOnce(w.rest, Body(w, d), Effective(w, d, run, us), p);
  }

  /** An update that finishes leaves in the files the commit of the aggregate they meant, and its event names the
      Issue and the run it was about and says what was recorded of it. */
  lemma UpdateIsTold(w: Setting, f: Recovery.Fresh, d: Disk.Files<Aggregate>, u: Authority.Update)
    requires w.codec.Faithful() && Durability.Durable(w.Env(), d) && Store.Commits(w.Env(), f, d, RequestFor(w, u))
    ensures w.Env().Sound() && Authority.Commit(w.rest, Body(w, d), u).Some?
    ensures var d' := Disk.ApplyAll(d, Store.UpdatePlan(w.Env(), f, d, RequestFor(w, u), false).writes);
            var log, s := Recovery.Read(w.Env(), d'), Body(w, d);
            && d'.state.Present? && Some(d'.state.value.body) == Authority.Commit(w.rest, s, u)
            && log.LogOk? && log.events != []
            && var e := log.events[|log.events| - 1];
            && e.issueNumber == u.issue && e.runId == w.run(u) && e.kind == w.record(s, u).kind
            && e.payload == w.codec.compact(w.record(s, u).payload)
            && e.sequence == d'.state.value.revision && e.timestamp == d'.state.value.updatedAt == f.now
  {
    hide Store.UpdatePlan, Authority.Commit, Durability.Durable, Durability.Target, Store.Commits, Recovery.Read,
         Disk.ApplyAll, Valid, Normalize;
    SettingIsSound(w);
    CurrentIsBody(w, f, Durability.Target(w.Env(), d));
    Store.UpdateRecords(w.Env(), f, d, RequestFor(w, u), false);
  }

  lemma CurrentIsBody(w: Setting, f: Recovery.Fresh, d: Disk.Files<Aggregate>)
    ensures Atomicity.Current(w.Env(), f, d).body == Store.ContentsOf(w.Env(), d).body
  {
  }

  // ---------------------------------------------------------------- a crash that strands the repository

  /** The payload {"n":1}, and how an indented transaction spells it. */
  const OBJECT: seq<Byte> := [123, 34, 110, 34, 58, 49, 125]
  const SPELLED: seq<Byte> := [123, 10, 32, 32, 32, 32, 32, 32, 34, 110, 34, 58, 32, 49, 10, 32, 32, 32, 32, 125]

  /** A repository whose remaining checks always pass and whose events all carry that payload. */
  function NewSetting(c: Codec): Setting {
    Setting(c, "repo", (s: Aggregate) => true, (s: Aggregate, n: nat) => None, (s: Aggregate) => [],
            (dir: string) => EMPTY, (n: Recovery.Note) => OBJECT, (u: Authority.Update) => "run-1",
            (s: Aggregate, u: Authority.Update) => Noted("execution_started", OBJECT))
  }

  const NEW_FILES: Disk.Files<Aggregate> := Disk.Files(Disk.Absent, Disk.Absent, [], Disk.Absent, map[])

  /** The first execution of the first Issue. */
  function FirstStart(): Authority.Update {
    Authority.Update(1, [Authority.Start(1, 1, 1, 5, [])], 5, Boundary.Mint(0, (n: nat) => 0))
  }

  lemma FirstStartCommits(rest: Aggregate -> bool)
    requires forall s :: rest(s)
    ensures Valid(rest, EMPTY) && Authority.Commit(rest, EMPTY, FirstStart()).Some?
  {
    var u := FirstStart();
    assert u.steps[1..] == [];
    FirstStartTakes();
    var t := Authority.Do(EMPTY, u.steps[0]).value;
    assert Authority.DoAll(EMPTY, u.steps) == Authority.DoAll(t, []) == Some(t);
    assert Valid(rest, Boundary.Finalize(t, u.mint, u.now)) by { FirstStartIsValid(rest); }
  }

  const STARTED := NEW_ISSUE.(status := Claiming, runId := 1, generation := 1, attempts := 1, updatedAt := 5)

  lemma FirstStartTakes()
    ensures Authority.Do(EMPTY, FirstStart().steps[0]) ==
            Some(Aggregate(map[1 := STARTED], map[], map[], map[], Some(Execution(1, 1, 1, 1, 5)), 0))
  {
  }

  lemma FirstStartIsValid(rest: Aggregate -> bool)
    requires forall s :: rest(s)
    ensures var t := Aggregate(map[1 := STARTED], map[], map[], map[], Some(Execution(1, 1, 1, 1, 5)), 0);
            Boundary.Finalize(t, FirstStart().mint, 5) == t && Valid(rest, t)
  {
  }

  lemma FirstStartIsNext(w: Setting, f: Recovery.Fresh)
    requires Authority.Commit(w.rest, EMPTY, FirstStart()).Some?
    ensures var env, r := w.Env(), RequestFor(w, FirstStart());
            var t := Store.NextTxn(env, f, env.EmptySnapshot(f.now), r);
            t.Some? && t.value.event.payload == w.codec.compact(w.record(EMPTY, FirstStart()).payload)
  {
    hide Authority.Commit, Valid;
    Fencing.CommitProgresses(w.rest, EMPTY, FirstStart());
  }

  /** A first start on a new directory that stops after the append ends, at the next recovery, in quarantine. */
  lemma FirstStartStrands(c: Codec, f: Recovery.Fresh, g: Recovery.Fresh)
    requires c.Faithful() && c.compact(OBJECT) == OBJECT && c.indent(OBJECT) == SPELLED
    ensures var env, r := NewSetting(c).Env(), RequestFor(NewSetting(c), FirstStart());
            var d' := Store.Attempted(env, NEW_FILES, Store.Attempt(Store.Change(f, r, false), 2, 0));
            && env.Sound() && Durability.Durable(env, NEW_FILES) && Atomicity.Stranded(env, d')
            && Recovery.RecoverPlan(env, g, d').outcome == Recovery.Blocked(Recovery.MarkerSnapshot(env, g))
  {
    hide Authority.Commit, Valid, Atomicity.Stranded, Store.Attempted, Recovery.RecoverPlan;
    var w := NewSetting(c);
    var env, r := w.Env(), RequestFor(w, FirstStart());
    SettingIsSound(w);
    FirstStartCommits(w.rest);
    FirstStartIsNext(w, f);
    Store.CrashStrands(env, f, NEW_FILES, r, false);
    Atomicity.StrandedPlan(env, g, Store.Attempted(env, NEW_FILES, Store.Attempt(Store.Change(f, r, false), 2, 0)));
  }
}
