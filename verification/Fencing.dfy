/**
 Fencing: over every run of updates, the generation of a newly committed execution
 of an Issue exceeds all earlier ones, so an identity once released is never
 current again.
 */
module Fencing {
  import opened Wrappers
  import opened Lifecycle
  import opened Aggregate
  import opened ExecutionSlot
  import opened Boundary
  import opened Resolution
  import opened Answers
  import opened Isolation
  import opened Sorting
  import opened Authority

  /** The active execution names a managed Issue with the same run and generation. */
  predicate Matches(s: Aggregate) {
    s.active.Some? ==>
      && s.active.value.issue in s.issues && s.active.value.generation > 0
      && IsIdentity(s.issues[s.active.value.issue], s.active.value.Owner())
  }

  /** The highest generation the Issue can have used. */
  function Floor(s: Aggregate, n: nat): nat {
    if n in s.issues then s.issues[n].generation
    else if n in s.quarantined && s.quarantined[n].lastValid.Some? then s.quarantined[n].lastValid.value.generation
    else 0
  }

  /** The Issue can never execute again. */
  predicate Dead(s: Aggregate, n: nat) {
    if n in s.issues then s.issues[n].status.Canceled?
    else n in s.quarantined && (s.quarantined[n].lastValid.None? || s.quarantined[n].lastValid.value.status.Canceled?)
  }

  predicate Managed(s: Aggregate, n: nat) { n in s.issues || n in s.quarantined }

  /** One Issue has only moved forward from `was` to `s`. */
  predicate Forward(was: Aggregate, s: Aggregate, n: nat) {
    && (Managed(was, n) ==> Managed(s, n))
    && (Dead(was, n) ==> Dead(s, n))
    && (Floor(was, n) <= Floor(s, n) || Dead(s, n))
  }

  /** The execution is the one there was, or a new generation. */
  predicate Fenced(was: Aggregate, s: Aggregate) {
    s.active.Some? ==>
      var a := s.active.value;
      || (was.active.Some? && was.active.value.issue == a.issue && was.active.value.Owner() == a.Owner())
      || a.generation > Floor(was, a.issue)
      || Dead(s, a.issue)
  }

  ghost predicate Progress(was: Aggregate, s: Aggregate) {
    Matches(s) && Fenced(was, s) && forall n :: Forward(was, s, n)
  }

  /** The slot and every Issue's identity are as they were. */
  ghost predicate SameAuthority(s: Aggregate, t: Aggregate) {
    && t.active == s.active && t.quarantined.Keys == s.quarantined.Keys
    && (forall n :: n in s.quarantined ==> t.quarantined[n].lastValid == s.quarantined[n].lastValid)
    && (forall n :: n in s.issues ==> n in t.issues)
    && (forall n :: n in t.issues && n !in s.issues ==> n !in s.quarantined)
    && (forall n :: n in s.issues ==>
          && t.issues[n].generation == s.issues[n].generation && t.issues[n].runId == s.issues[n].runId
          && (s.issues[n].status.Canceled? ==> t.issues[n].status.Canceled?))
  }

  lemma SameProgresses(was: Aggregate, s: Aggregate, t: Aggregate)
    requires Progress(was, s) && SameAuthority(s, t)
    ensures Progress(was, t)
  {
    forall n ensures Forward(was, t, n) {
      assert Forward(was, s, n);
    }
  }

  /** One Issue takes or keeps the slot at a generation it has not used before. */
  ghost predicate Advanced(s: Aggregate, t: Aggregate, n: nat) {
    && (n in s.issues || n !in s.quarantined) && n in t.issues && t.issues == s.issues[n := t.issues[n]]
    && t.quarantined == s.quarantined
    && (n in s.issues && s.issues[n].status.Canceled? ==> t.issues[n].status.Canceled?)
    && t.active.Some? && t.active.value.issue == n && IsIdentity(t.issues[n], t.active.value.Owner())
    && t.issues[n].generation > (if n in s.issues then s.issues[n].generation else 0)
  }

  lemma AdvanceProgresses(was: Aggregate, s: Aggregate, t: Aggregate, n: nat)
    requires Progress(was, s) && Advanced(s, t, n)
    ensures Progress(was, t)
  {
    assert Forward(was, s, n);
    forall m ensures Forward(was, t, m) {
      assert Forward(was, s, m);
    }
  }

  /** The slot is given back and nothing else about identities changes. */
  lemma ReleaseProgresses(was: Aggregate, s: Aggregate, t: Aggregate)
    requires Progress(was, s) && SameAuthority(s, t.(active := s.active)) && t.active.None?
    ensures Progress(was, t)
  {
    SameProgresses(was, s, t.(active := s.active));
    forall n ensures Forward(was, t, n) {
      assert Forward(was, t.(active := s.active), n);
    }
  }

  /** An Issue comes back from quarantine as its last valid form, or canceled. */
  ghost predicate Returned(s: Aggregate, t: Aggregate, n: nat) {
    && n in s.quarantined && n !in s.issues && t.quarantined == s.quarantined - {n}
    && n in t.issues && t.issues == s.issues[n := t.issues[n]]
    && (s.active.Some? ==> s.active.value.issue != n) && t.active == s.active
    && (t.issues[n].status.Canceled?
        || (s.quarantined[n].lastValid.Some? && !s.quarantined[n].lastValid.value.status.Canceled?
            && t.issues[n].generation == s.quarantined[n].lastValid.value.generation))
  }

  lemma ReturnProgresses(was: Aggregate, s: Aggregate, t: Aggregate, n: nat)
    requires Progress(was, s) && Returned(s, t, n)
    ensures Progress(was, t)
  {
    forall m ensures Forward(was, t, m) {
      assert Forward(was, s, m);
    }
  }

  lemma MoveKeepsIdentity(i: Issue, d: Decision)
    requires Transition(i, d).Some?
    ensures var j := Transition(i, d).value;
            && j.generation == i.generation && j.runId == i.runId
            && (i.status.Canceled? ==> j.status.Canceled?)
  {
    if i.status.Canceled? { CanceledIsFinal(d); }
  }

  // ---------------------------------------------------------------- what each operation does to authority

  lemma ApplyKeeps(s: Aggregate, n: nat, d: Decision, at: int)
    requires ApplyTo(s, n, d, at).Some?
    ensures SameAuthority(s, ApplyTo(s, n, d, at).value)
  {
    MoveKeepsIdentity(s.issues[n], d);
  }

  lemma ClosedKeeps(s: Aggregate, n: nat, status: Status, x: Identity, at: int)
    requires CancelNotPlanned(s, n, status, x, at).Some?
    ensures var t := CancelNotPlanned(s, n, status, x, at).value;
            SameAuthority(s, t.(active := s.active)) && (t.active.None? || t.active == s.active)
  {
  }

  lemma ReleaseKeeps(s: Aggregate, n: nat, x: Identity)
    requires ExecutionSlot.Release(s, n, x).Some?
    ensures var t := ExecutionSlot.Release(s, n, x).value; SameAuthority(s, t.(active := s.active)) && t.active.None?
  {
  }

  lemma CaptureKeeps(s: Aggregate, n: nat, x: Identity, c: Id, at: int)
    requires ExecutionSlot.Capture(s, n, x, c, at).Some?
    ensures var t := ExecutionSlot.Capture(s, n, x, c, at).value;
            SameAuthority(s, t.(active := s.active)) && t.active.None?
  {
  }

  lemma RecoverKeeps(s: Aggregate, n: nat, expected: Execution, at: int)
    requires RecoverUnstarted(s, n, expected, at).Some?
    ensures var t := RecoverUnstarted(s, n, expected, at).value;
            SameAuthority(s, t.(active := s.active)) && t.active.None?
  {
    hide UnstartedConflictLaunch, Move;
    var i := s.issues[n];
    var s1 := ExecutionSlot.Release(s, n, Identity(i.runId, i.generation)).value;
    MoveKeepsIdentity(s1.issues[n], AbortWorkerLaunch(i.launchSource));
  }

  lemma AnswerKeeps(s: Aggregate, p: Step)
    requires (p.Record? || p.Ask?) && Do(s, p).Some?
    ensures SameAuthority(s, Do(s, p).value)
  {
    hide FirstPending;
  }

  lemma PrepareKeeps(s: Aggregate, p: Place, id: Id, mint: Id, at: int)
    requires PrepareAnswered(s, p, id, mint, at).Some?
    ensures SameAuthority(s, PrepareAnswered(s, p, id, mint, at).value)
  {
    var r := Get(s, p);
    var to := AnsweredTransition(s, r).value;
    assert s.issues[r.issue].status.NeedsInput?;
  }

  lemma BookKeepingKeeps(s: Aggregate, p: Step)
    requires (p.Open? || p.Withdraw? || p.Effect? || p.Clear? || p.Route?) && Do(s, p).Some?
    ensures SameAuthority(s, Do(s, p).value)
  {
    hide CancelPending, SetEffect, ClearEffect, SameAuthority, RouteAllowed;
    match p {
      case Effect(n, runId, kind, mint, at) => EffectKeeps(s, n, runId, kind, mint, at);
      case Clear(n, effectId) => ClearKeeps(s, n, effectId);
      case Withdraw(n) => WithdrawKeeps(s, n);
      case _ =>
    }
    BooksOnly(s, Do(s, p).value);
  }

  lemma BooksOnly(s: Aggregate, t: Aggregate)
    requires t == s.(requests := t.requests, effects := t.effects)
    ensures SameAuthority(s, t)
  {
  }

  lemma WithdrawKeeps(s: Aggregate, n: nat)
    ensures CancelPending(s, n) == s.(requests := CancelPending(s, n).requests)
  {
  }

  lemma EffectKeeps(s: Aggregate, n: nat, runId: Id, kind: Option<EffectKind>, mint: Id, at: int)
    requires SetEffect(s, n, runId, kind, mint, at).Some?
    ensures var t := SetEffect(s, n, runId, kind, mint, at).value; t == s.(effects := t.effects)
  {
  }

  lemma ClearKeeps(s: Aggregate, n: nat, effectId: Id)
    requires ClearEffect(s, n, effectId).Some?
    ensures var t := ClearEffect(s, n, effectId).value; t == s.(effects := t.effects)
  {
  }

  lemma EditKeeps(s: Aggregate, p: Step)
    requires p.Edit? && Do(s, p).Some?
    ensures SameAuthority(s, Do(s, p).value)
  {
  }

  lemma RelaunchAdvances(s: Aggregate, n: nat, action: Action, o: Observation, mint: Id, at: int)
    requires n in s.issues && s.issues[n].suspension.Some? && (action.Resume? || action.RetryStage?)
    requires Relaunch(s, n, action, o, mint, at).Some?
    ensures Advanced(s, Relaunch(s, n, action, o, mint, at).value, n)
  {
  }

  lemma AdoptionKeeps(s: Aggregate, n: nat, action: Action, o: Observation, mint: Id, at: int)
    requires action.ApproveConflictPaths? || action.AdoptHead? || action.AdoptWorktree?
    requires ResolveOperator(s, n, action, o, mint, at).Some?
    ensures SameAuthority(s, ResolveOperator(s, n, action, o, mint, at).value)
  {
    hide ExtendPaths;
  }

  lemma MergedKeeps(s: Aggregate, n: nat, o: Observation, mint: Id, at: int)
    requires n in s.issues && s.issues[n].suspension.Some? && AdoptMerged(s, n, o, mint, at).Some?
    ensures SameAuthority(s, AdoptMerged(s, n, o, mint, at).value)
  {
  }

  lemma CancelKeeps(s: Aggregate, n: nat, o: Observation, mint: Id, at: int)
    requires n in s.issues && s.issues[n].suspension.Some? && CancelSuspended(s, n, o, mint, at).Some?
    ensures SameAuthority(s, CancelSuspended(s, n, o, mint, at).value)
  {
  }

  // ---------------------------------------------------------------- every step

  lemma TakeStep(was: Aggregate, s: Aggregate, p: Step)
    requires Progress(was, s) && Do(s, p).Some? && (p.Start? || p.ResumeRun? || p.Transfer?)
    ensures Progress(was, Do(s, p).value)
  {
    hide Progress, Deliver;
    var t := Do(s, p).value;
    assert Matches(s) by { ProgressMatches(was, s); }
    if t != s { AdvanceProgresses(was, s, t, p.n); }
  }

  lemma ProgressMatches(was: Aggregate, s: Aggregate)
    requires Progress(was, s)
    ensures Matches(s)
  {
  }

  lemma GiveBackStep(was: Aggregate, s: Aggregate, p: Step)
    requires Progress(was, s) && Do(s, p).Some? && (p.Release? || p.Capture? || p.RecoverLaunch?)
    ensures Progress(was, Do(s, p).value)
  {
    hide Progress, UnstartedConflictLaunch, SameAuthority, RecoverUnstarted, ExecutionSlot.Capture,
         ExecutionSlot.Release;
    match p {
      case Release(n, x) => ReleaseKeeps(s, n, x);
      case Capture(n, x, c, at) => CaptureKeeps(s, n, x, c, at);
      case RecoverLaunch(n, expected, at) => RecoverKeeps(s, n, expected, at);
    }
    ReleaseProgresses(was, s, Do(s, p).value);
  }

  lemma RestoreStep(was: Aggregate, s: Aggregate, p: Step)
    requires Progress(was, s) && Do(s, p).Some? && (p.RestoreQuestion? || p.RestoreChecks? || p.CancelRecord?)
    ensures Progress(was, Do(s, p).value)
  {
    hide Progress, PutAll, ChecksRequest, ResumedFrom;
    ReturnProgresses(was, s, Do(s, p).value, p.n);
  }

  lemma ResolveStep(was: Aggregate, s: Aggregate, p: Step)
    requires Progress(was, s) && Do(s, p).Some? && p.ResolveIssue?
    ensures Progress(was, Do(s, p).value)
  {
    hide Progress, Relaunch, AdoptMerged, CancelSuspended, ApprovePaths, AdoptHeadSha, AdoptWorktreeSha,
         SameAuthority, Advanced;
    var t := Do(s, p).value;
    match p.action {
      case Resume => RelaunchAdvances(s, p.n, p.action, p.o, p.mint, p.at); AdvanceProgresses(was, s, t, p.n);
      case RetryStage => RelaunchAdvances(s, p.n, p.action, p.o, p.mint, p.at); AdvanceProgresses(was, s, t, p.n);
      case AdoptPr => MergedKeeps(s, p.n, p.o, p.mint, p.at); SameProgresses(was, s, t);
      case Cancel => CancelKeeps(s, p.n, p.o, p.mint, p.at); SameProgresses(was, s, t);
      case AdoptInput =>
      case _ => AdoptionKeeps(s, p.n, p.action, p.o, p.mint, p.at); SameProgresses(was, s, t);
    }
  }

  lemma ClosedStep(was: Aggregate, s: Aggregate, p: Step)
    requires Progress(was, s) && Do(s, p).Some? && p.CancelClosed?
    ensures Progress(was, Do(s, p).value)
  {
    hide Progress, CancelNotPlanned, SameAuthority;
    var t := Do(s, p).value;
    ClosedKeeps(s, p.n, p.status, p.x, p.at);
    if t.active == s.active {
      assert t == t.(active := s.active);
      SameProgresses(was, s, t);
    } else {
      ReleaseProgresses(was, s, t);
    }
  }

  lemma OtherStep(was: Aggregate, s: Aggregate, p: Step)
    requires Progress(was, s) && Do(s, p).Some?
    requires p.Apply? || p.Record? || p.Prepare? || p.Ask? || p.Open? || p.Withdraw? || p.Effect? || p.Clear?
             || p.Edit? || p.Route?
    ensures Progress(was, Do(s, p).value)
  {
    hide Progress, SameAuthority, ApplyTo, RecordAnswer, PrepareAnswered, AskIntake;
    match p {
      case Apply(n, d, at) => ApplyKeeps(s, n, d, at);
      case Prepare(place, id, mint, at) => PrepareKeeps(s, place, id, mint, at);
      case Record(_, _, _, _, _) => AnswerKeeps(s, p);
      case Ask(_, _, _, _) => AnswerKeeps(s, p);
      case Edit(_, _) => EditKeeps(s, p);
      case _ => BookKeepingKeeps(s, p);
    }
    SameProgresses(was, s, Do(s, p).value);
  }

  lemma StepProgresses(was: Aggregate, s: Aggregate, p: Step)
    requires Progress(was, s) && Do(s, p).Some?
    ensures Progress(was, Do(s, p).value)
  {
    hide Progress, Do;
    if p.Start? || p.ResumeRun? || p.Transfer? {
      TakeStep(was, s, p);
    } else if p.Release? || p.Capture? || p.RecoverLaunch? {
      GiveBackStep(was, s, p);
    } else if p.RestoreQuestion? || p.RestoreChecks? || p.CancelRecord? {
      RestoreStep(was, s, p);
    } else if p.ResolveIssue? {
      ResolveStep(was, s, p);
    } else if p.CancelClosed? {
      ClosedStep(was, s, p);
    } else {
      OtherStep(was, s, p);
    }
  }

  lemma {:induction false} StepsProgress(was: Aggregate, s: Aggregate, steps: seq<Step>)
    requires Progress(was, s) && DoAll(s, steps).Some?
    ensures Progress(was, DoAll(s, steps).value)
    decreases |steps|
  {
    hide Progress, Do;
    if steps != [] {
      StepProgresses(was, s, steps[0]);
      StepsProgress(was, Do(s, steps[0]).value, steps[1..]);
    }
  }

  // ---------------------------------------------------------------- the boundary, isolation, commit

  predicate SameIssue(i: Issue, j: Issue) {
    j.generation == i.generation && j.runId == i.runId && j.status == i.status && j.answers == i.answers
  }

  lemma ParkedSame(i: Issue, a: Execution, mint: Id, at: int)
    ensures SameIssue(i, Parked(i, a, mint, at))
  {
  }

  lemma AtBoundarySame(i: Issue, id: Id, at: int)
    ensures SameIssue(i, AtBoundary(i, id, at))
  {
  }

  lemma ParkKeeps(s: Aggregate, m: Mint, at: int)
    ensures var r := ReleaseBoundary(s, m, at);
            && r.quarantined == s.quarantined && r.issues.Keys == s.issues.Keys
            && (forall n :: n in s.issues ==> SameIssue(s.issues[n], r.issues[n]))
            && (r.active.None? || r.active == s.active)
  {
    hide Parked;
    if s.active.Some? && s.active.value.issue in s.issues {
      ParkedSame(s.issues[s.active.value.issue], s.active.value, m.checkpoint, at);
    }
  }

  /** The boundary may give the slot back; it changes no status and no identity. */
  lemma FinalizeKeeps(s: Aggregate, m: Mint, at: int)
    ensures var t := Finalize(s, m, at);
            && t.quarantined == s.quarantined && t.issues.Keys == s.issues.Keys
            && (forall n :: n in s.issues ==> SameIssue(s.issues[n], t.issues[n]))
            && (t.active.None? || t.active == s.active)
  {
    hide ReleaseBoundary, AtBoundary;
    var r, t := ReleaseBoundary(s, m, at), Finalize(s, m, at);
    ParkKeeps(s, m, at);
    forall n | n in s.issues ensures SameIssue(s.issues[n], t.issues[n]) {
      AtBoundarySame(r.issues[n], m.suspension(n), at);
    }
  }

  lemma BoundaryKeeps(s: Aggregate, m: Mint, at: int)
    ensures var t := Finalize(s, m, at);
            SameAuthority(s, t.(active := s.active)) && (t.active.None? || t.active == s.active)
  {
    hide Finalize;
    FinalizeKeeps(s, m, at);
  }

  lemma FinalizeProgresses(was: Aggregate, s: Aggregate, m: Mint, at: int)
    requires Progress(was, s)
    ensures Progress(was, Finalize(s, m, at))
  {
    hide Progress, SameAuthority, Finalize;
    var t := Finalize(s, m, at);
    BoundaryKeeps(s, m, at);
    if t.active == s.active {
      assert t == t.(active := s.active);
      SameProgresses(was, s, t);
    } else {
      ReleaseProgresses(was, s, t);
    }
  }

  lemma IsolateProgresses(was: Aggregate, s: Aggregate, n: nat, at: int)
    requires Progress(was, s)
    ensures Progress(was, Isolate(s, n, LastValid(was, n), at))
  {
    hide Lookup, InOrder;
    var t := Isolate(s, n, LastValid(was, n), at);
    forall m ensures Forward(was, t, m) {
      assert Forward(was, s, m);
    }
  }

  lemma StampProgresses(was: Aggregate, s: Aggregate, now: int)
    requires Progress(was, s)
    ensures Progress(was, Stamp(was, s, now))
  {
    SameProgresses(was, s, Stamp(was, s, now));
  }

  lemma Unchanged(s: Aggregate)
    requires Matches(s)
    ensures Progress(s, s)
  {
  }

  /** Every commit moves every Issue forward and leaves a valid aggregate. */
  lemma CommitProgresses(rest: Aggregate -> bool, s: Aggregate, u: Update)
    requires Matches(s) && Commit(rest, s, u).Some?
    ensures Progress(s, Commit(rest, s, u).value) && Valid(rest, Commit(rest, s, u).value)
  {
    hide Progress, Matches, Valid, Finalize, Isolate, Stamp, DoAll;
    Unchanged(s);
    StepsProgress(s, s, u.steps);
    var t := Finalize(DoAll(s, u.steps).value, u.mint, u.now);
    FinalizeProgresses(s, DoAll(s, u.steps).value, u.mint, u.now);
    if Valid(rest, t) {
      StampProgresses(s, t, u.now);
    } else {
      IsolateProgresses(s, t, u.issue, u.now);
      StampProgresses(s, Isolate(t, u.issue, LastValid(s, u.issue), u.now), u.now);
    }
  }

  // ---------------------------------------------------------------- runs

  /** The aggregate after a run of updates; a rejected update changes nothing. */
  ghost function After(rest: Aggregate -> bool, s: Aggregate, us: seq<Update>): Aggregate
    decreases |us|
  {
    if us == [] then s
    else
      var t := Commit(rest, s, us[0]);
      After(rest, if t.Some? then t.value else s, us[1..])
  }

  /** The holder of the slot is managed, executes, and has the slot's run and generation. */
  predicate Backed(s: Aggregate) {
    s.active.Some? ==>
      && s.active.value.issue in s.issues && s.active.value.generation > 0
      && s.issues[s.active.value.issue].status.RequiresActiveExecution()
      && IsIdentity(s.issues[s.active.value.issue], s.active.value.Owner())
  }

  /** The slot is held by exactly the managed Issue that executes, at its own run and generation, and
      that Issue is not in quarantine. */
  ghost predicate Governed(s: Aggregate) {
    && (forall n :: n in s.issues && s.issues[n].status.RequiresActiveExecution()
          <==> s.active.Some? && s.active.value.issue == n)
    && Backed(s) && (s.active.Some? ==> s.active.value.issue !in s.quarantined)
  }

  lemma ValidGoverned(rest: Aggregate -> bool, s: Aggregate)
    requires Valid(rest, s)
    ensures Matches(s) && Governed(s)
  {
  }

  /** Whatever the steps of an update do, the slot names a managed Issue at its own run and generation. */
  lemma MutatedMatches(rest: Aggregate -> bool, s: Aggregate, u: Update)
    requires Valid(rest, s) && DoAll(s, u.steps).Some?
    ensures Matches(DoAll(s, u.steps).value)
  {
    hide DoAll, Progress;
    ValidGoverned(rest, s);
    Unchanged(s);
    StepsProgress(s, s, u.steps);
    ProgressMatches(s, DoAll(s, u.steps).value);
  }

  /** What the boundary establishes before anything is validated: whoever still holds the slot is backed
      by an executing Issue, and a holder that executes loses nothing. */
  lemma BoundaryBacksAuthority(rest: Aggregate -> bool, s: Aggregate, u: Update)
    requires Valid(rest, s) && DoAll(s, u.steps).Some?
    ensures var mutated := DoAll(s, u.steps).value;
            var t := Finalize(mutated, u.mint, u.now);
            && Backed(t)
            && (mutated.active.Some? ==>
                  var n := mutated.active.value.issue;
                  && n in mutated.issues
                  && (mutated.issues[n].status.RequiresActiveExecution() <==> t.active.Some?)
                  && (t.active.Some? ==> t.active == mutated.active))
            && (mutated.active.None? ==> t.active.None?)
  {
    hide DoAll, AtBoundary, Parked;
    var mutated := DoAll(s, u.steps).value;
    MutatedMatches(rest, s, u);
    FinalizeKeeps(mutated, u.mint, u.now);
  }

  /** Over every run the slot follows the lifecycle: it is held by exactly the managed Issue that executes. */
  lemma {:induction false} AuthorityFollowsLifecycle(rest: Aggregate -> bool, s: Aggregate, us: seq<Update>)
    requires Valid(rest, s)
    ensures Governed(After(rest, s, us)) && Valid(rest, After(rest, s, us))
    decreases |us|
  {
    hide Commit, Valid, Governed;
    ValidGoverned(rest, s);
    if us != [] {
      var t := Commit(rest, s, us[0]);
      if t.Some? {
        CommitProgresses(rest, s, us[0]);
        AuthorityFollowsLifecycle(rest, t.value, us[1..]);
      } else {
        AuthorityFollowsLifecycle(rest, s, us[1..]);
      }
    }
  }

  /** The identity can no longer be current: its generation is used up, or its Issue is finished. */
  predicate Spent(s: Aggregate, n: nat, generation: nat) {
    generation <= Floor(s, n) || Dead(s, n)
  }

  lemma ValidNotDead(rest: Aggregate -> bool, s: Aggregate)
    requires Valid(rest, s) && s.active.Some?
    ensures !Dead(s, s.active.value.issue) && Floor(s, s.active.value.issue) == s.active.value.generation
  {
  }

  /** One commit either keeps the owner of the slot or gives the slot to a generation above
      everything the Issue has used. */
  lemma CommitFences(rest: Aggregate -> bool, s: Aggregate, u: Update, n: nat, x: Identity)
    requires Valid(rest, s) && Commit(rest, s, u).Some?
    requires Spent(s, n, x.generation)
    ensures var t := Commit(rest, s, u).value;
            && Spent(t, n, x.generation)
            && (Owns(t, n, x) ==> Owns(s, n, x))
            && (t.active.Some? && t.active.value.issue == n && !Owns(s, n, t.active.value.Owner()) ==>
                  t.active.value.generation > x.generation)
  {
    hide Commit;
    var t := Commit(rest, s, u).value;
    ValidGoverned(rest, s);
    CommitProgresses(rest, s, u);
    assert Forward(s, t, n);
    if t.active.Some? {
      ValidNotDead(rest, t);
    }
  }

  /** Fencing over runs: whoever held the slot before is either still holding it without
      interruption or never holds it again, and a new holder has a larger generation. */
  lemma {:induction false} ReleasedNeverReturns(
      rest: Aggregate -> bool, s: Aggregate, us: seq<Update>, n: nat, x: Identity)
    requires Valid(rest, s) && Spent(s, n, x.generation) && !Owns(s, n, x)
    ensures !Owns(After(rest, s, us), n, x) && Valid(rest, After(rest, s, us))
    decreases |us|
  {
    hide Commit, Spent, Valid, Owns;
    if us != [] {
      var t := Commit(rest, s, us[0]);
      if t.Some? {
        CommitFences(rest, s, us[0], n, x);
        ValidGoverned(rest, s);
        CommitProgresses(rest, s, us[0]);
        ReleasedNeverReturns(rest, t.value, us[1..], n, x);
      } else {
        ReleasedNeverReturns(rest, s, us[1..], n, x);
      }
    }
  }

  /** Every identity that ever held the slot is spent from then on. */
  lemma OwnerIsSpent(rest: Aggregate -> bool, s: Aggregate, n: nat, x: Identity)
    requires Valid(rest, s) && Owns(s, n, x)
    ensures Spent(s, n, x.generation)
  {
  }

  lemma {:induction false} SpentForever(rest: Aggregate -> bool, s: Aggregate, us: seq<Update>, n: nat, generation: nat)
    requires Valid(rest, s) && Spent(s, n, generation)
    ensures Spent(After(rest, s, us), n, generation) && Valid(rest, After(rest, s, us))
    decreases |us|
  {
    hide Commit, Spent, Valid;
    if us != [] {
      var t := Commit(rest, s, us[0]);
      if t.Some? {
        CommitFences(rest, s, us[0], n, Identity(0, generation));
        ValidGoverned(rest, s);
        CommitProgresses(rest, s, us[0]);
        SpentForever(rest, t.value, us[1..], n, generation);
      } else {
        SpentForever(rest, s, us[1..], n, generation);
      }
    }
  }

  /** A commit after any run that changes the holder of an Issue's slot uses a generation above
      every generation of that Issue that was ever committed. */
  lemma NewHolderIsNewer(rest: Aggregate -> bool, s: Aggregate, us: seq<Update>, u: Update, n: nat, x: Identity)
    requires Valid(rest, s) && Owns(s, n, x)
    ensures var m := After(rest, s, us);
            Commit(rest, m, u).Some? ==>
              var a := Commit(rest, m, u).value.active;
              a.Some? && a.value.issue == n && !Owns(m, n, a.value.Owner()) ==> a.value.generation > x.generation
  {
    hide Commit, After;
    OwnerIsSpent(rest, s, n, x);
    SpentForever(rest, s, us, n, x.generation);
    if Commit(rest, After(rest, s, us), u).Some? { CommitFences(rest, After(rest, s, us), u, n, x); }
  }

  /** Over a whole run: whoever holds the slot for an Issue at its end held it at its start, or has a
      generation above every one the Issue had used at its start. */
  lemma LaterHolderIsNewer(rest: Aggregate -> bool, s: Aggregate, us: seq<Update>, n: nat, generation: nat)
    requires Valid(rest, s) && Spent(s, n, generation)
    ensures var t := After(rest, s, us);
            t.active.Some? && t.active.value.issue == n && !Owns(s, n, t.active.value.Owner()) ==>
              t.active.value.generation > generation
  {
    hide After, Valid;
    var t := After(rest, s, us);
    if t.active.Some? && t.active.value.issue == n && t.active.value.generation <= generation
       && !Owns(s, n, t.active.value.Owner()) {
      ReleasedNeverReturns(rest, s, us, n, t.active.value.Owner());
    }
  }

  /** An identity that was held, and later is not, is not held at any time after that. */
  lemma IdentityIsFenced(
      rest: Aggregate -> bool, s: Aggregate, before: seq<Update>, after: seq<Update>, n: nat, x: Identity)
    requires Valid(rest, s) && Owns(s, n, x) && !Owns(After(rest, s, before), n, x)
    ensures !Owns(After(rest, After(rest, s, before), after), n, x)
  {
    hide After;
    OwnerIsSpent(rest, s, n, x);
    SpentForever(rest, s, before, n, x.generation);
    ReleasedNeverReturns(rest, After(rest, s, before), after, n, x);
  }
}
