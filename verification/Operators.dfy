/** What an operator's resolution does to the slot, to other Issues and to the conflict paths. */
module Operators {
  import opened Wrappers
  import opened Lifecycle
  import opened Aggregate
  import opened ExecutionSlot
  import opened Resolution
  import opened Sorting

  /** Nothing about any other Issue changes. */
  predicate OthersUntouched(s: Aggregate, t: Aggregate, n: nat) {
    && t.issues - {n} == s.issues - {n} && t.effects - {n} == s.effects - {n} && t.quarantined == s.quarantined
    && t.requests.Keys == s.requests.Keys
    && (forall id :: id in s.requests && s.requests[id].issue != n ==> t.requests[id] == s.requests[id])
  }

  lemma HandOverFacts(s: Aggregate, n: nat, to: Status, action: Action, o: Observation, mint: Id, at: int)
    requires n in s.issues && s.issues[n].suspension.Some? && !to.Terminal()
    requires HandOver(s, n, to, action, o, mint, at).Some?
    ensures var t := HandOver(s, n, to, action, o, mint, at).value;
            && t.active == s.active && n in t.issues
            && var i, j := s.issues[n], t.issues[n];
            && j.generation == i.generation && j.runId == i.runId && j.status == to
            && n in t.effects && t.effects[n].kind.ApplyResolution? && t.effects[n].runId == i.runId
            && j.suspension.Some? && j.suspension.value.status.Resolved?
               && j.suspension.value.resolution == Some(action)
  {
    hide Move, SetEffect;
    var i := s.issues[n];
    MoveOn(i, to);
    var k := if action.RetryStage? && StageOf(i).ChecksStage?
        then Move(i, to).(headSha := o.headSha, prNumber := o.prNumber) else Move(i, to);
    var w := WithIssue(s, n, k);
    EffectSet(w, n, k.runId, ApplyResolution, mint, at);
    var u := SetEffect(w, n, k.runId, Some(ApplyResolution), mint, at).value;
    assert u.issues[n] == k;
  }

  lemma MoveOn(i: Issue, to: Status)
    requires !to.Terminal()
    ensures var j := Move(i, to);
            j.suspension == i.suspension && j.generation == i.generation && j.runId == i.runId && j.status == to
  {
  }

  lemma EffectSet(s: Aggregate, n: nat, runId: Id, kind: EffectKind, mint: Id, at: int)
    requires SetEffect(s, n, runId, Some(kind), mint, at).Some?
    ensures var t := SetEffect(s, n, runId, Some(kind), mint, at).value;
            t == s.(effects := t.effects) && n in t.effects && t.effects[n].kind == kind && t.effects[n].runId == runId
  {
  }

  lemma RelaunchSlot(s: Aggregate, n: nat, action: Action, o: Observation, mint: Id, at: int)
    requires n in s.issues && s.issues[n].suspension.Some? && (action.Resume? || action.RetryStage?)
    requires Relaunch(s, n, action, o, mint, at).Some?
    ensures var t := Relaunch(s, n, action, o, mint, at).value;
            && s.active.None? && n in t.issues && s.issues[n].continuation.Some?
            && var i, j := s.issues[n], t.issues[n];
            && j.generation == i.generation + 1 && j.runId == i.runId
            && t.active == Some(Execution(n, i.runId, i.generation + 1, i.continuation.value.baseSha, at))
            && n in t.effects && t.effects[n].kind.ApplyResolution? && t.effects[n].runId == i.runId
            && !j.status.Terminal() && j.suspension.Some? && j.suspension.value.status.Resolved?
            && j.suspension.value.resolution == Some(action)
  {
    hide Offered, HandOver;
    var i := s.issues[n];
    var to := Resolve(i.status, action, StageOf(i)).value;
    var t := ResumeFrom(WithIssue(s, n, Retried(i, action, o, at)), n, i.continuation.value.id, at).value;
    HandOverFacts(t, n, to, action, o, mint, at);
  }

  lemma RelaunchOthers(s: Aggregate, n: nat, action: Action, o: Observation, mint: Id, at: int)
    requires n in s.issues && s.issues[n].suspension.Some? && (action.Resume? || action.RetryStage?)
    requires Relaunch(s, n, action, o, mint, at).Some?
    ensures OthersUntouched(s, Relaunch(s, n, action, o, mint, at).value, n)
  {
    hide Offered, Move, Resolve;
  }

  /** Resume and retry-stage succeed only with the slot free; they take it for exactly this Issue,
      for the run and base of its checkpoint, under a fresh generation, and leave the effect that
      hands the resolution to the supervisor. */
  lemma RelaunchTakesSlot(s: Aggregate, n: nat, action: Action, o: Observation, mint: Id, at: int)
    requires action.Resume? || action.RetryStage?
    requires ResolveOperator(s, n, action, o, mint, at).Some?
    ensures var t := ResolveOperator(s, n, action, o, mint, at).value;
            && s.active.None? && n in s.issues && n in t.issues && s.issues[n].continuation.Some?
            && var i, j := s.issues[n], t.issues[n];
            && j.generation == i.generation + 1 && j.runId == i.runId
            && t.active == Some(Execution(n, i.runId, i.generation + 1, i.continuation.value.baseSha, at))
            && n in t.effects && t.effects[n].kind.ApplyResolution? && t.effects[n].runId == i.runId
            && !j.status.Terminal() && j.suspension.Some? && j.suspension.value.status.Resolved?
            && j.suspension.value.resolution == Some(action)
            && OthersUntouched(s, t, n)
  {
    hide Relaunch, OthersUntouched;
    RelaunchSlot(s, n, action, o, mint, at);
    RelaunchOthers(s, n, action, o, mint, at);
  }

  lemma MergeOthers(s: Aggregate, n: nat, o: Observation, mint: Id, at: int)
    requires n in s.issues && s.issues[n].suspension.Some? && AdoptMerged(s, n, o, mint, at).Some?
    ensures var t := AdoptMerged(s, n, o, mint, at).value; t.active == s.active && OthersUntouched(s, t, n)
  {
    hide Offered, Move, Resolve;
  }

  lemma CancelOthers(s: Aggregate, n: nat, o: Observation, mint: Id, at: int)
    requires n in s.issues && s.issues[n].suspension.Some? && CancelSuspended(s, n, o, mint, at).Some?
    ensures var t := CancelSuspended(s, n, o, mint, at).value; t.active == s.active && OthersUntouched(s, t, n)
  {
    hide Offered, Move, Resolve;
  }

  /** No other action takes or gives back the slot. */
  lemma OtherActionsKeepSlot(s: Aggregate, n: nat, action: Action, o: Observation, mint: Id, at: int)
    requires !(action.Resume? || action.RetryStage?)
    requires ResolveOperator(s, n, action, o, mint, at).Some?
    ensures ResolveOperator(s, n, action, o, mint, at).value.active == s.active
    ensures OthersUntouched(s, ResolveOperator(s, n, action, o, mint, at).value, n)
    ensures s.active.Some? ==> (action.Cancel? || action.AdoptPr?) && s.active.value.issue != n
  {
    hide Relaunch, AdoptMerged, CancelSuspended, ExtendPaths, CanAdoptHead, CanAdoptWorktree, CanApprovePaths, Offered;
    if action.AdoptPr? { MergeOthers(s, n, o, mint, at); }
    if action.Cancel? { CancelOthers(s, n, o, mint, at); }
  }

  lemma ValuesAreInjective()
    ensures Injective(ByValue())
  {
  }

  /** Extending the allowed paths only adds to them, and the result is sorted without repetitions. */
  lemma PathsOnlyGrow(r: Conflict, paths: seq<Path>)
    ensures var grown := ExtendPaths(r, paths).allowedPaths;
            && StrictlyAscending(grown, ByValue())
            && forall p :: p in grown <==> p in r.allowedPaths || p in paths
  {
    ValuesAreInjective();
    CanonicalSorts(r.allowedPaths + paths, ByValue());
  }

  /** Over every resolution the allowed paths of a conflict grow as a set, by at most the observed
      paths, and are sorted without repetitions whenever they change. */
  lemma ResolutionExtendsPaths(s: Aggregate, n: nat, action: Action, o: Observation, mint: Id, at: int)
    requires n in s.issues && s.issues[n].conflict.Some?
    requires ResolveOperator(s, n, action, o, mint, at).Some?
    ensures var j := ResolveOperator(s, n, action, o, mint, at).value.issues[n];
            && j.conflict.Some?
            && var was, grown := s.issues[n].conflict.value.allowedPaths, j.conflict.value.allowedPaths;
            && (forall p :: p in was ==> p in grown)
            && (forall p :: p in grown ==> p in was || p in o.paths)
            && (grown != was ==>
                  (action.ApproveConflictPaths? || action.AdoptWorktree?) && StrictlyAscending(grown, ByValue()))
  {
    hide ExtendPaths, CanAdoptHead, CanAdoptWorktree, CanApprovePaths, Offered, StrictlyAscending;
    PathsOnlyGrow(s.issues[n].conflict.value, o.paths);
    ExtendOnlyPaths(s.issues[n].conflict.value, o.paths);
  }

  lemma ExtendOnlyPaths(r: Conflict, paths: seq<Path>)
    ensures ExtendPaths(r, paths) == r.(allowedPaths := ExtendPaths(r, paths).allowedPaths)
  {
  }

  /** Resolution ends where the lifecycle table says: cancel cancels, adopting a merged pull
      request completes, and adoption of evidence leaves the Issue suspended. */
  lemma ResolutionOutcome(s: Aggregate, n: nat, action: Action, o: Observation, mint: Id, at: int)
    requires ResolveOperator(s, n, action, o, mint, at).Some?
    ensures n in s.issues && n in ResolveOperator(s, n, action, o, mint, at).value.issues
    ensures var i, j := s.issues[n], ResolveOperator(s, n, action, o, mint, at).value.issues[n];
            && i.status.Suspended()
            && (action.Cancel? ==>
                  && j.status.Canceled? && j.cancellation.Some? && j.cancellation.value.previous == i.status
                  && (j.suspension.Some? ==> j.suspension.value.resolution == Some(Action.Cancel)))
            && (action.AdoptPr? ==> j.status.Completed? && j.suspension.None? && j.continuation.None? && j.merged)
            && (action.AdoptWorktree? || action.AdoptHead? || action.ApproveConflictPaths? ==> j.status == i.status)
  {
    hide ExtendPaths, CanAdoptHead;
    if action.AdoptHead? && CanAdoptHead(s.issues[n]) { HeadSuspended(s.issues[n]); }
  }

  lemma HeadSuspended(i: Issue)
    ensures CanAdoptHead(i) ==> i.status.Suspended()
  {
  }

  // ---------------------------------------------------------------- which observation goes where

  /** An Issue with a run, a suspension and no worker, and authority that is not its own. */
  predicate Resolvable(s: Aggregate, n: nat, at: int) {
    && at != 0 && n in s.issues && s.issues[n].runId != 0 && s.issues[n].suspension.Some? && s.issues[n].worker == 0
    && s.issues[n].status in {Blocked, Failed} && !(s.active.Some? && s.active.value.issue == n)
  }

  /** The checkpoint belongs to the run, and the suspension is about it. */
  predicate Checkpointed(i: Issue) {
    && i.continuation.Some? && i.suspension.Some? && i.suspension.value.checkpointId == i.continuation.value.id
    && i.continuation.value.runId == i.runId && 0 < i.continuation.value.generation <= i.generation
  }

  /** Cancelling takes an open or held back suspension that offers it, and nothing else. */
  lemma CancelExactly(s: Aggregate, n: nat, o: Observation, mint: Id, at: int)
    ensures ResolveOperator(s, n, Action.Cancel, o, mint, at).Some? <==>
            && Resolvable(s, n, at) && n >= 1
            && Action.Cancel in s.issues[n].suspension.value.actions
            && s.issues[n].suspension.value.status in {SuspensionStatus.Open, SuspensionStatus.Quarantined}
  {
    hide CancelPending, Move;
  }

  /** Adopting takes an open suspension that offers it and a pull request that was observed whole. */
  lemma AdoptExactly(s: Aggregate, n: nat, o: Observation, mint: Id, at: int)
    ensures ResolveOperator(s, n, AdoptPr, o, mint, at).Some? <==>
            && Resolvable(s, n, at) && n >= 1
            && AdoptPr in s.issues[n].suspension.value.actions && s.issues[n].suspension.value.status.Open?
            && o.prUrl != 0 && o.prNumber != 0 && o.headSha != 0
  {
    hide Move;
  }

  /** Resuming and retrying take an open suspension that offers it, the free slot, and the run's own checkpoint, and
      a retried publication or checks stage what was observed of it. */
  lemma RelaunchExactly(s: Aggregate, n: nat, action: Action, o: Observation, mint: Id, at: int)
    requires action.Resume? || action.RetryStage?
    ensures ResolveOperator(s, n, action, o, mint, at).Some? <==>
            && Resolvable(s, n, at) && n >= 1 && s.active.None? && Checkpointed(s.issues[n])
            && action in s.issues[n].suspension.value.actions && s.issues[n].suspension.value.status.Open?
            && (action.RetryStage? ==>
                  var stage := s.issues[n].continuation.value.stage;
                  && !stage.NoStage?
                  && (stage.PublishStage? ==> o.summary != 0 && o.resultSha != 0 && (o.repairHead ==> o.headSha != 0))
                  && (stage.ChecksStage? ==> o.headSha != 0 && o.prNumber != 0))
  {
    hide StageForStatus;
  }

  /** A worker's own suspension of a run without a pull request whose worktree was measured and whose head was not. */
  predicate LacksHead(i: Issue) {
    && Checkpointed(i) && i.continuation.value.generation == i.generation
    && i.suspension.value.status.Open? && i.suspension.value.fromWorker && Action.Resume in i.suspension.value.actions
    && var c := i.continuation.value;
    && c.stage.ResumeStage? && c.headSha == 0 && c.worktreeSha != 0 && c.session.Some?
    && c.workspace.Some? && c.workspace == i.workspace
    && i.conflict.None? && i.prUrl == 0 && i.prNumber == 0 && c.prUrl == 0 && c.prNumber == 0
  }

  /** A suspension held back for nothing but the unmeasured worktree of a conflict. */
  predicate LacksWorktree(i: Issue) {
    && Checkpointed(i) && i.conflict.Some? && i.continuation.value.worktreeSha == 0
    && i.continuation.value.stage in {ResumeStage, ConflictStage}
    && var p := i.suspension.value;
    && p.status.Quarantined? && p.recoverability.Ambiguous? && p.missing == [WorktreeEvidence]
    && p.actions == [Action.Cancel]
  }

  /** An open suspension of a conflict of the pull request whose head, worktree and workspace were all measured. */
  predicate LacksPaths(i: Issue) {
    && Checkpointed(i) && i.continuation.value.generation == i.generation && i.conflict.Some? && i.workspace.Some?
    && i.runId != 0
    && var c, p, r := i.continuation.value, i.suspension.value, i.conflict.value;
    && p.status.Open? && p.recoverability.Operator? && Action.RetryStage in p.actions && p.missing == []
    && p.id != 0 && c.id != 0 && c.stage in {ResumeStage, ConflictStage} && c.worktreeSha != 0 && c.baseSha != 0
    && c.headSha != 0 && c.headSha == i.headSha == r.originalHead && c.workspace == i.workspace
    && r.targetBase != 0 && r.allowedPaths != []
    && i.prNumber > 0 && c.prNumber == i.prNumber && i.prUrl != 0 && c.prUrl == i.prUrl && r.prUrl == i.prUrl
  }

  /** Evidence is adopted exactly for an Issue that lacks it, with the slot free, and as it was observed. */
  lemma AdoptionExactly(s: Aggregate, n: nat, action: Action, o: Observation, mint: Id, at: int)
    requires action in {AdoptHead, AdoptWorktree, ApproveConflictPaths, AdoptInput}
    ensures ResolveOperator(s, n, action, o, mint, at).Some? <==>
            && Resolvable(s, n, at) && s.active.None?
            && (action.AdoptHead? ==> LacksHead(s.issues[n]) && o.headSha != 0)
            && (action.AdoptWorktree? ==> LacksWorktree(s.issues[n]) && o.worktreeSha != 0)
            && (action.ApproveConflictPaths? ==>
                  && LacksPaths(s.issues[n]) && o.headSha == s.issues[n].headSha
                  && o.worktreeSha == s.issues[n].continuation.value.worktreeSha && o.paths != [] && o.pathsValid
                  && forall id :: id in s.requests && s.requests[id].issue == n ==> !s.requests[id].status.Pending?)
            && !action.AdoptInput?
  {
    hide ExtendPaths;
  }

  /** Adopting a merged pull request stores the observed one and asks for the done label. */
  lemma MergeIsRecorded(s: Aggregate, n: nat, o: Observation, mint: Id, at: int)
    requires ResolveOperator(s, n, AdoptPr, o, mint, at).Some?
    ensures var t := ResolveOperator(s, n, AdoptPr, o, mint, at).value;
            && n in t.issues && n in t.effects && t.effects[n].kind.MarkDone? && t.effects[n].runId == s.issues[n].runId
            && var j := t.issues[n];
            && j.prUrl == o.prUrl && j.prNumber == o.prNumber && j.headSha == o.headSha && j.merged && j.updatedAt == at
            && j.runId == s.issues[n].runId && j.generation == s.issues[n].generation
  {
    hide Resolve;
  }

  /** Adopting a head or a worktree stores the observed digest in the checkpoint; the worktree then opens the
      suspension for a retry of the conflict. */
  lemma EvidenceIsRecorded(s: Aggregate, n: nat, action: Action, o: Observation, mint: Id, at: int)
    requires action.AdoptHead? || action.AdoptWorktree? || action.ApproveConflictPaths?
    requires ResolveOperator(s, n, action, o, mint, at).Some?
    ensures var t := ResolveOperator(s, n, action, o, mint, at).value;
            && n in s.issues && n in t.issues && t == WithIssue(s, n, t.issues[n])
            && var i, j := s.issues[n], t.issues[n];
            && (action.ApproveConflictPaths? ==> j == i.(conflict := j.conflict))
            && (!action.ApproveConflictPaths? ==>
                  && i.continuation.Some? && j.continuation.Some? && j.updatedAt == at
                  && var c, d := i.continuation.value, j.continuation.value;
                  && (action.AdoptHead? ==>
                        d == c.(headSha := o.headSha) && j == i.(continuation := j.continuation, updatedAt := at))
                  && (action.AdoptWorktree? ==>
                        && d == c.(worktreeSha := o.worktreeSha, stage := ConflictStage)
                        && j.suspension.Some? && j.suspension.value.status.Open? && j.suspension.value.missing == []
                        && j.suspension.value.actions == [Action.Cancel, RetryStage]
                        && j.suspension.value.recoverability.Operator?))
  {
    hide CanAdoptHead, CanApprovePaths, ExtendPaths, HasPending;
    if action.AdoptHead? { HeadSuspended(s.issues[n]); }
  }

  /** Cancelling records who cancelled and what GitHub said, withdraws the open questions, and drops the effect. */
  lemma CancelIsRecorded(s: Aggregate, n: nat, o: Observation, mint: Id, at: int)
    requires ResolveOperator(s, n, Action.Cancel, o, mint, at).Some?
    ensures var t := ResolveOperator(s, n, Action.Cancel, o, mint, at).value;
            && n in s.issues && n in t.issues && n !in t.effects && !HasPending(t, n)
            && t.issues[n].notPlanned == o.notPlanned
            && t.issues[n].cancellation == Some(Cancellation(OperatorResolution, s.issues[n].status, false, at))
            && forall id :: id in s.requests && !(s.requests[id].issue == n && s.requests[id].status.Pending?) ==>
                 id in t.requests && t.requests[id] == s.requests[id]
  {
    hide Resolve;
  }

  /** Resuming takes nothing from the observation; retrying takes the observed result into a publication, keeps any
      other checkpoint, and starts the attempts at a conflict over. */
  lemma RetriedIsRecorded(i: Issue, action: Action, o: Observation, at: int)
    requires i.continuation.Some?
    ensures var c, j := i.continuation.value, Retried(i, action, o, at);
            && j == i.(continuation := j.continuation, conflict := j.conflict) && j.continuation.Some?
            && (!action.RetryStage? ==> j == i)
            && (action.RetryStage? ==>
                  && (i.conflict.None? ==> j.conflict.None?)
                  && (i.conflict.Some? ==> j.conflict == Some(i.conflict.value.(attempts := 0, updatedAt := at)))
                  && (!c.stage.PublishStage? ==> j.continuation.value == c)
                  && (c.stage.PublishStage? ==>
                        j.continuation.value == c.(summary := o.summary, resultSha := o.resultSha,
                            headSha := if o.repairHead then o.headSha else c.headSha)))
  {
  }

  /** The relaunched Issue is the retried one, moved on to the stage's status; a checks stage also takes the observed
      head and pull request. */
  lemma RelaunchIsRecorded(s: Aggregate, n: nat, action: Action, o: Observation, mint: Id, at: int)
    requires action.Resume? || action.RetryStage?
    requires ResolveOperator(s, n, action, o, mint, at).Some?
    ensures var t := ResolveOperator(s, n, action, o, mint, at).value;
            && n in s.issues && n in t.issues && s.issues[n].continuation.Some?
            && var i, j := s.issues[n], t.issues[n];
            && var c, checks := i.continuation.value, action.RetryStage? && i.continuation.value.stage.ChecksStage?;
            && j.continuation == Retried(i, action, o, at).continuation
            && j.conflict == Retried(i, action, o, at).conflict
            && j.prUrl == i.prUrl && j.updatedAt == at && j.answers == i.answers && j.workspace == i.workspace
            && j.headSha == (if checks then o.headSha else i.headSha)
            && j.prNumber == (if checks then o.prNumber else i.prNumber)
            && j.status == if checks then AwaitingChecks
                           else if action.RetryStage? && c.stage.ConflictStage? then ResolvingConflict
                           else ResumePending
  {
    hide Offered, Retried, SetEffect;
    RelaunchTo(s, n, action, o, mint, at);
    RetriedIsRecorded(s.issues[n], action, o, at);
    var i := s.issues[n];
    var t := ResumeFrom(WithIssue(s, n, Retried(i, action, o, at)), n, i.continuation.value.id, at).value;
    HandedOver(t, n, Resolve(i.status, action, StageOf(i)).value, action, o, mint, at);
  }

  lemma HandedOver(s: Aggregate, n: nat, to: Status, action: Action, o: Observation, mint: Id, at: int)
    requires n in s.issues && !to.Terminal() && HandOver(s, n, to, action, o, mint, at).Some?
    ensures var t, checks := HandOver(s, n, to, action, o, mint, at).value,
                action.RetryStage? && StageOf(s.issues[n]).ChecksStage?;
            && n in t.issues
            && var i, j := s.issues[n], t.issues[n];
            && j.status == to && j.updatedAt == at && j.continuation == i.continuation && j.conflict == i.conflict
            && j.prUrl == i.prUrl && j.answers == i.answers && j.workspace == i.workspace
            && j.headSha == (if checks then o.headSha else i.headSha)
            && j.prNumber == (if checks then o.prNumber else i.prNumber)
  {
  }

  lemma RelaunchTo(s: Aggregate, n: nat, action: Action, o: Observation, mint: Id, at: int)
    requires action.Resume? || action.RetryStage?
    requires ResolveOperator(s, n, action, o, mint, at).Some?
    ensures n in s.issues && s.issues[n].suspension.Some? && Relaunch(s, n, action, o, mint, at).Some?
    ensures ResolveOperator(s, n, action, o, mint, at) == Relaunch(s, n, action, o, mint, at)
  {
    hide Relaunch;
  }
}
