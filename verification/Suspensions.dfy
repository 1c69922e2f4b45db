/**
 Suspensions and checkpoints over all runs: what is blocked or failed can always be
 resolved, and what loses the slot keeps the evidence to take it again.
 */
module Suspensions {
  import opened Wrappers
  import opened Lifecycle
  import opened Aggregate
  import opened ExecutionSlot
  import opened Boundary
  import opened Resolution
  import opened Answers
  import opened Isolation
  import opened Authority
  import opened Fencing
  import opened Sorting

  /** A suspended or completed Issue carries no resolved suspension. */
  predicate Unresolved(i: Issue) {
    i.status.Suspended() || i.status.Completed? ==> i.suspension.None? || !i.suspension.value.status.Resolved?
  }

  predicate AllUnresolved(s: Aggregate) {
    forall n :: n in s.issues ==> Unresolved(s.issues[n])
  }

  /** What the boundary makes of that: every suspended Issue has a suspension still to be
      resolved, and a completed one has neither suspension nor checkpoint. */
  predicate Resolvable(i: Issue) {
    && (i.status.Suspended() ==> i.suspension.Some? && !i.suspension.value.status.Resolved?)
    && (i.status.Completed? ==> i.suspension.None? && i.continuation.None?)
  }

  predicate AllResolvable(s: Aggregate) {
    forall n :: n in s.issues ==> Resolvable(s.issues[n])
  }

  lemma MoveStaysUnresolved(i: Issue, d: Decision)
    requires Unresolved(i) && Transition(i, d).Some?
    ensures Unresolved(Transition(i, d).value)
  {
    if i.status.Canceled? { CanceledIsFinal(d); }
  }

  /** At most one Issue differs, and it is unresolved. */
  ghost predicate OneChange(s: Aggregate, t: Aggregate) {
    || t.issues == s.issues
    || exists n :: n in t.issues && t.issues == s.issues[n := t.issues[n]] && Unresolved(t.issues[n])
  }

  lemma OneChangeKeeps(s: Aggregate, t: Aggregate)
    requires AllUnresolved(s) && OneChange(s, t)
    ensures AllUnresolved(t)
  {
  }

  lemma SlotChange(s: Aggregate, p: Step)
    requires AllUnresolved(s) && Do(s, p).Some?
    requires p.Start? || p.Release? || p.Capture? || p.ResumeRun? || p.Transfer?
    ensures OneChange(s, Do(s, p).value)
  {
    hide Deliver;
    var t := Do(s, p).value;
    if t != s {
      assert t.issues == s.issues[p.n := t.issues[p.n]];
      if p.Start? { MoveStaysUnresolved(IssueAt(s, p.n), StartClaim); }
      assert Unresolved(t.issues[p.n]);
    }
  }

  lemma LaunchChange(s: Aggregate, n: nat, expected: Execution, at: int)
    requires AllUnresolved(s) && RecoverUnstarted(s, n, expected, at).Some?
    ensures OneChange(s, RecoverUnstarted(s, n, expected, at).value)
  {
    hide UnstartedConflictLaunch, Move;
    var i := s.issues[n];
    var s1 := ExecutionSlot.Release(s, n, Identity(i.runId, i.generation)).value;
    MoveStaysUnresolved(s1.issues[n], AbortWorkerLaunch(i.launchSource));
    var t := RecoverUnstarted(s, n, expected, at).value;
    assert t.issues == s.issues[n := t.issues[n]];
  }

  lemma ApplyChange(s: Aggregate, n: nat, d: Decision, at: int)
    requires AllUnresolved(s) && ApplyTo(s, n, d, at).Some?
    ensures OneChange(s, ApplyTo(s, n, d, at).value)
  {
    hide Move;
    MoveStaysUnresolved(s.issues[n], d);
    var t := ApplyTo(s, n, d, at).value;
    assert t.issues == s.issues[n := t.issues[n]];
  }

  lemma RestoreChange(s: Aggregate, p: Step)
    requires AllUnresolved(s) && Do(s, p).Some? && (p.RestoreQuestion? || p.RestoreChecks? || p.CancelRecord?)
    ensures OneChange(s, Do(s, p).value)
  {
    hide PutAll, ChecksRequest, ResumedFrom;
    var t := Do(s, p).value;
    assert t.issues == s.issues[p.n := t.issues[p.n]];
  }

  lemma RelaunchChange(s: Aggregate, n: nat, action: Action, o: Observation, mint: Id, at: int)
    requires AllUnresolved(s) && n in s.issues && s.issues[n].suspension.Some? && (action.Resume? || action.RetryStage?)
    requires Relaunch(s, n, action, o, mint, at).Some?
    ensures OneChange(s, Relaunch(s, n, action, o, mint, at).value)
  {
    var t := Relaunch(s, n, action, o, mint, at).value;
    assert t.issues == s.issues[n := t.issues[n]];
    assert !t.issues[n].status.Terminal();
  }

  lemma ResolveChange(s: Aggregate, n: nat, action: Action, o: Observation, mint: Id, at: int)
    requires AllUnresolved(s) && ResolveOperator(s, n, action, o, mint, at).Some?
    ensures OneChange(s, ResolveOperator(s, n, action, o, mint, at).value)
  {
    hide Relaunch, ExtendPaths, CanAdoptHead, CanApprovePaths;
    var t := ResolveOperator(s, n, action, o, mint, at).value;
    if action.Resume? || action.RetryStage? {
      RelaunchChange(s, n, action, o, mint, at);
    } else {
      assert t.issues == s.issues[n := t.issues[n]];
      assert Unresolved(t.issues[n]);
    }
  }

  lemma ClosedChange(s: Aggregate, n: nat, status: Status, x: Identity, at: int)
    requires AllUnresolved(s) && CancelNotPlanned(s, n, status, x, at).Some?
    ensures OneChange(s, CancelNotPlanned(s, n, status, x, at).value)
  {
    var t := CancelNotPlanned(s, n, status, x, at).value;
    assert t.issues == s.issues[n := t.issues[n]];
    assert t.issues[n].status.Canceled?;
  }

  lemma PrepareChange(s: Aggregate, p: Place, id: Id, mint: Id, at: int)
    requires AllUnresolved(s) && PrepareAnswered(s, p, id, mint, at).Some?
    ensures OneChange(s, PrepareAnswered(s, p, id, mint, at).value)
  {
    var n := Get(s, p).issue;
    var t := PrepareAnswered(s, p, id, mint, at).value;
    assert t.issues == s.issues[n := t.issues[n]];
    assert !t.issues[n].status.Terminal();
  }

  lemma AskChange(s: Aggregate, n: nat, id: Id, question: Id, at: int)
    requires AllUnresolved(s) && AskIntake(s, n, id, question, at).Some?
    ensures OneChange(s, AskIntake(s, n, id, question, at).value)
  {
    hide FirstPending;
    var t := AskIntake(s, n, id, question, at).value;
    if n !in s.issues && t != s {
      assert t.issues == s.issues[n := t.issues[n]];
    }
  }

  lemma EditChange(s: Aggregate, n: nat, j: Issue)
    requires AllUnresolved(s) && n in s.issues && EditAllowed(s.issues[n], j)
    ensures OneChange(s, WithIssue(s, n, j))
  {
    assert WithIssue(s, n, j).issues == s.issues[n := WithIssue(s, n, j).issues[n]];
  }

  lemma BookChange(s: Aggregate, p: Step)
    requires Do(s, p).Some? && (p.Record? || p.Open? || p.Withdraw? || p.Effect? || p.Clear? || p.Route?)
    ensures Do(s, p).value.issues == s.issues
  {
    hide Finds;
  }

  lemma StepStaysUnresolved(s: Aggregate, p: Step)
    requires AllUnresolved(s) && Do(s, p).Some?
    ensures AllUnresolved(Do(s, p).value)
  {
    hide AllUnresolved, Unresolved, OneChange, ExecutionSlot.Start, ExecutionSlot.Release, ExecutionSlot.Capture,
         ResumeFrom,
         ExecutionSlot.Transfer, ApplyTo, RecoverUnstarted, ResolveOperator, RestoreInput, RestoreAnsweredChecks,
         CancelQuarantined, CancelNotPlanned, RecordAnswer, PrepareAnswered, AskIntake, SetEffect, ClearEffect;
    match p {
      case RecoverLaunch(n, expected, at) => LaunchChange(s, n, expected, at);
      case Apply(n, d, at) => ApplyChange(s, n, d, at);
      case RestoreQuestion(_, _, _, _) => RestoreChange(s, p);
      case RestoreChecks(_, _, _, _, _) => RestoreChange(s, p);
      case CancelRecord(_, _) => RestoreChange(s, p);
      case ResolveIssue(n, action, o, mint, at) => ResolveChange(s, n, action, o, mint, at);
      case CancelClosed(n, status, x, at) => ClosedChange(s, n, status, x, at);
      case Prepare(place, id, mint, at) => PrepareChange(s, place, id, mint, at);
      case Ask(n, id, question, at) => AskChange(s, n, id, question, at);
      case Edit(n, j) => EditChange(s, n, j);
      case Start(_, _, _, _, _) => SlotChange(s, p);
      case Release(_, _) => SlotChange(s, p);
      case Capture(_, _, _, _) => SlotChange(s, p);
      case ResumeRun(_, _, _) => SlotChange(s, p);
      case Transfer(_, _, _, _) => SlotChange(s, p);
      case _ => BookChange(s, p); SameIssues(s, Do(s, p).value);
    }
    OneChangeKeeps(s, Do(s, p).value);
  }

  lemma SameIssues(s: Aggregate, t: Aggregate)
    requires t.issues == s.issues
    ensures OneChange(s, t)
  {
  }

  lemma {:induction false} StepsStayUnresolved(s: Aggregate, steps: seq<Step>)
    requires AllUnresolved(s) && DoAll(s, steps).Some?
    ensures AllUnresolved(DoAll(s, steps).value)
    decreases |steps|
  {
    hide AllUnresolved, Do;
    if steps != [] {
      StepStaysUnresolved(s, steps[0]);
      StepsStayUnresolved(Do(s, steps[0]).value, steps[1..]);
    }
  }

  lemma ParkStaysUnresolved(i: Issue, a: Execution, mint: Id, at: int)
    requires Unresolved(i)
    ensures Unresolved(Parked(i, a, mint, at))
  {
  }

  lemma BoundaryResolves(i: Issue, id: Id, at: int)
    requires Unresolved(i)
    ensures Resolvable(AtBoundary(i, id, at))
  {
  }

  lemma FinalizeResolves(s: Aggregate, m: Mint, at: int)
    requires AllUnresolved(s)
    ensures AllResolvable(Finalize(s, m, at))
  {
    hide Parked, AtBoundary, Resolvable, Unresolved;
    var r := ReleaseBoundary(s, m, at);
    forall n | n in r.issues ensures Resolvable(AtBoundary(r.issues[n], m.suspension(n), at)) {
      if n in s.issues && s.active.Some? { ParkStaysUnresolved(s.issues[n], s.active.value, m.checkpoint, at); }
      BoundaryResolves(r.issues[n], m.suspension(n), at);
    }
  }

  lemma ResolvableIsUnresolved(s: Aggregate)
    requires AllResolvable(s)
    ensures AllUnresolved(s)
  {
  }

  lemma CommitResolves(rest: Aggregate -> bool, s: Aggregate, u: Update)
    requires AllResolvable(s) && Commit(rest, s, u).Some?
    ensures AllResolvable(Commit(rest, s, u).value)
  {
    hide Finalize, Valid, DoAll, Resolvable, AllUnresolved, RecordFor;
    ResolvableIsUnresolved(s);
    StepsStayUnresolved(s, u.steps);
    FinalizeResolves(DoAll(s, u.steps).value, u.mint, u.now);
  }

  /** Over every run: each blocked or failed Issue has a suspension that is not resolved, and each
      completed Issue has neither suspension nor checkpoint. */
  lemma {:induction false} SuspensionsHold(rest: Aggregate -> bool, s: Aggregate, us: seq<Update>)
    requires AllResolvable(s)
    ensures AllResolvable(After(rest, s, us))
    decreases |us|
  {
    hide Commit, AllResolvable;
    if us != [] {
      var t := Commit(rest, s, us[0]);
      if t.Some? { CommitResolves(rest, s, us[0]); }
      SuspensionsHold(rest, if t.Some? then t.value else s, us[1..]);
    }
  }

  // ---------------------------------------------------------------- checkpoints

  /** The Issue holding the slot has left the executing statuses but is not finished. */
  predicate LosesAuthority(s: Aggregate, n: nat) {
    && s.active.Some? && s.active.value.issue == n && n in s.issues
    && !s.issues[n].status.RequiresActiveExecution() && !s.issues[n].status.Completed? && !s.issues[n].status.Canceled?
  }

  /** When the boundary takes authority from an unfinished Issue, the checkpoint holds its run,
      generation and base, and with the slot free that checkpoint takes it again: same run, same
      base, a larger generation. */
  lemma CheckpointResumes(s: Aggregate, m: Mint, at: int, n: nat, later: int)
    requires Matches(s) && LosesAuthority(s, n) && later != 0
    ensures var a, t := s.active.value, Finalize(s, m, at);
            && t.active.None? && n in t.issues && t.issues[n].continuation.Some?
            && var c := t.issues[n].continuation.value;
            && c.runId == a.runId && c.generation == a.generation && c.baseSha == a.baseSha && c.createdAt == at
            && !c.stage.NoStage? && t.issues[n].worker == 0
            && ResumeFrom(t, n, c.id, later).Some?
            && ResumeFrom(t, n, c.id, later).value.active
               == Some(Execution(n, a.runId, a.generation + 1, a.baseSha, later))
  {
    hide TerminalSuspension;
  }

  /** A suspension that a commit makes at the boundary. */
  lemma CommittedSuspension(s: Aggregate, m: Mint, at: int, n: nat)
    requires n in s.issues && s.issues[n].status.Suspended() && s.issues[n].suspension.None?
    ensures var t := Finalize(s, m, at);
            && n in t.issues && t.issues[n].suspension.Some?
            && var p := t.issues[n].suspension.value;
            && StrictlyAscending(p.actions, ByName()) && Cancel in p.actions
            && (p.status.Quarantined? <==> p.recoverability.Ambiguous?) && !p.status.Resolved?
            && p.id == m.suspension(n)
            && p.checkpointId == (if t.issues[n].continuation.Some? then t.issues[n].continuation.value.id else 0)
  {
    hide KeepCheckpoint, OfferedActions, Missing;
    var r := ReleaseBoundary(s, m, at);
    ParkNoSuspension(s, m, at, n);
    BoundarySuspension(r.issues[n], m.suspension(n), at);
  }

  lemma ParkedKeepsNone(i: Issue, a: Execution, mint: Id, at: int)
    requires i.suspension.None?
    ensures Parked(i, a, mint, at).suspension.None? && Parked(i, a, mint, at).status == i.status
  {
  }

  lemma ParkNoSuspension(s: Aggregate, m: Mint, at: int, n: nat)
    requires n in s.issues && s.issues[n].suspension.None?
    ensures var r := ReleaseBoundary(s, m, at);
            n in r.issues && r.issues[n].suspension.None? && r.issues[n].status == s.issues[n].status
  {
    hide Parked;
    if s.active.Some? { ParkedKeepsNone(s.issues[n], s.active.value, m.checkpoint, at); }
  }

  // ---------------------------------------------------------------- what the boundary offers

  /** A run to be resumed or published whose worktree was never measured. */
  predicate Unmeasured(i: Issue) {
    && i.continuation.Some? && i.continuation.value.worktreeSha == 0
    && (i.continuation.value.stage.ResumeStage? || i.continuation.value.stage.PublishStage?)
  }

  /** What the boundary offers and why: a pull request may be adopted, a stage with one, or a later stage than the
      run itself, retried, any other checkpoint resumed; with the worktree unmeasured only cancel remains.  The
      suspension is held back exactly when the worktree is unmeasured or unknown. */
  lemma BoundaryOffers(i: Issue, id: Id, at: int)
    requires i.status.Suspended() && i.suspension.None?
    ensures var p, c := AtBoundary(i, id, at).suspension.value, i.continuation;
            && AtBoundary(i, id, at) == i.(suspension := Some(p))
            && p.id == id && p.suspendedAt == at && !p.fromWorker && p.resolution.None?
            && (AdoptPr in p.actions <==> !Unmeasured(i) && i.prUrl != 0)
            && (RetryStage in p.actions <==>
                !Unmeasured(i)
                && (i.prUrl != 0 || (c.Some? && c.value.stage in {PublishStage, ChecksStage, ConflictStage})))
            && (Resume in p.actions <==> !Unmeasured(i) && c.Some? && c.value.stage in {NoStage, ResumeStage})
            && (forall a :: a in p.actions ==> a in {Action.Cancel, AdoptPr, RetryStage, Resume})
            && (p.status.Quarantined? <==> Unmeasured(i) || i.worktree == 0)
            && (WorktreeEvidence in p.missing <==> Unmeasured(i))
            && (WorkspaceEvidence in p.missing <==> i.worktree == 0 || i.workspace.None?)
            && p.reasonCode == (if c.Some? && c.value.needsInput then NEEDS_INPUT_REASON
                                else if i.failureKind != 0 then i.failureKind else TERMINAL_REASON)
            && (i.lastError != 0 ==> p.reason == i.lastError)
  {
    hide StrictlyAscending;
    NamesAreInjective();
    OffersAre(i);
    CanonicalSorts(OfferedActions(i), ByName());
    var p := TerminalSuspension(i, id, at);
    assert forall a :: a in p.actions <==> a in OfferedActions(i);
  }

  lemma OffersAre(i: Issue)
    ensures var c, offered := i.continuation, OfferedActions(i);
            && (AdoptPr in offered <==> !Unmeasured(i) && i.prUrl != 0)
            && (RetryStage in offered <==>
                !Unmeasured(i)
                && (i.prUrl != 0 || (c.Some? && c.value.stage in {PublishStage, ChecksStage, ConflictStage})))
            && (Resume in offered <==> !Unmeasured(i) && c.Some? && c.value.stage in {NoStage, ResumeStage})
            && (forall a :: a in offered ==> a in {Action.Cancel, AdoptPr, RetryStage, Resume})
  {
    var merged: seq<Action> := if i.prUrl != 0 then [AdoptPr, RetryStage] else [];
    var resumed: seq<Action> :=
      if i.continuation.None? then []
      else if i.continuation.value.stage in {PublishStage, ChecksStage, ConflictStage} then [RetryStage] else [Resume];
    assert !NoWorktreeDigest(i) ==> OfferedActions(i) == [Action.Cancel] + merged + resumed;
    assert forall a :: a in [Action.Cancel] + merged + resumed <==> a == Action.Cancel || a in merged || a in resumed;
  }

  /** Each action the boundary offers is one the lifecycle can take, with one exception: retrying a stage is
      also offered for a pull request alone, and then nothing says which stage. */
  lemma OffersCanBeTaken(i: Issue, id: Id, at: int, a: Action)
    requires i.status.Suspended() && i.suspension.None? && a in AtBoundary(i, id, at).suspension.value.actions
    ensures Resolve(i.status, a, StageOf(i)).None? <==> a.RetryStage? && StageOf(i).NoStage?
  {
    BoundaryOffers(i, id, at);
  }

  /** A failed Issue with a pull request and a worktree, and no checkpoint. */
  const UNSTAGED := NEW_ISSUE.(status := Failed, runId := 1, generation := 1, worktree := 1, prUrl := 1, prNumber := 1)

  lemma OfferWithoutStage(id: Id, at: int)
    ensures RetryStage in AtBoundary(UNSTAGED, id, at).suspension.value.actions
    ensures Resolve(UNSTAGED.status, RetryStage, StageOf(UNSTAGED)).None?
  {
    BoundaryOffers(UNSTAGED, id, at);
    OffersCanBeTaken(UNSTAGED, id, at, RetryStage);
  }
}
