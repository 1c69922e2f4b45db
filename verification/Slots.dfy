/**
 What each operation on the execution slot leaves behind, and which operation takes it up
 again: a checkpoint is resumed, a handed-over identity releases, an effect is cleared.
 */
module Slots {
  import opened Wrappers
  import opened Lifecycle
  import opened Aggregate
  import opened ExecutionSlot
  import opened Boundary

  // ---------------------------------------------------------------- moving on

  /** Moving on clears what the new status may not keep, and only that: the source of a launch once it is left,
      checkpoint and suspension of what is completed, a resolved suspension when work ends. */
  lemma TransitionClears(i: Issue, d: Decision)
    requires Transition(i, d).Some?
    ensures var j := Transition(i, d).value;
            && Decide(d, i.status) == Some(j.status)
            && j == i.(status := j.status, launchSource := j.launchSource, continuation := j.continuation,
                       suspension := j.suspension)
            && j.launchSource == (if i.status.Launching? && !j.status.Launching? then Unset else i.launchSource)
            && j.continuation == (if j.status.Completed? then None else i.continuation)
            && var ends := j.status.Terminal() && !i.status.Terminal();
            && var settled := i.suspension.Some? && i.suspension.value.status.Resolved?;
               j.suspension == if j.status.Completed? || (ends && settled) then None else i.suspension
  {
  }

  /** A decision applied to an Issue is dated and touches no other Issue. */
  lemma DecisionIsDated(s: Aggregate, n: nat, d: Decision, at: int)
    ensures ApplyTo(s, n, d, at).Some? <==> n in s.issues && Decide(d, s.issues[n].status).Some?
    ensures ApplyTo(s, n, d, at).Some? ==>
              var t := ApplyTo(s, n, d, at).value;
              && n in t.issues && t == s.(issues := t.issues) && t.issues - {n} == s.issues - {n}
              && t.issues[n].updatedAt == at && Some(t.issues[n].status) == Decide(d, s.issues[n].status)
  {
    hide Decide;
  }

  // ---------------------------------------------------------------- effects

  /** Setting an effect keeps an equal one with its identifier and time, and otherwise makes a new one. */
  lemma EffectIsSet(s: Aggregate, n: nat, runId: Id, kind: EffectKind, mint: Id, at: int)
    ensures SetEffect(s, n, runId, Some(kind), mint, at).Some? <==> n >= 1 && runId != 0 && at != 0
    ensures n >= 1 && runId != 0 && at != 0 ==>
              var t := SetEffect(s, n, runId, Some(kind), mint, at).value;
              && t == s.(effects := t.effects) && t.effects - {n} == s.effects - {n} && n in t.effects
              && t.effects[n].runId == runId && t.effects[n].kind == kind
              && if n in s.effects && s.effects[n].runId == runId && s.effects[n].kind == kind
                 then t.effects[n] == s.effects[n]
                 else t.effects[n].id == mint && t.effects[n].createdAt == at
  {
  }

  /** Clearing with the identifier of the effect undoes setting it; another identifier is refused. */
  lemma ClearUndoesSet(s: Aggregate, n: nat, runId: Id, kind: EffectKind, mint: Id, at: int, effectId: Id)
    requires SetEffect(s, n, runId, Some(kind), mint, at).Some?
    ensures var t := SetEffect(s, n, runId, Some(kind), mint, at).value;
            && n in t.effects
            && (effectId != t.effects[n].id ==> ClearEffect(t, n, effectId).None?)
            && ClearEffect(t, n, t.effects[n].id) == Some(s.(effects := s.effects - {n}))
            && SetEffect(t, n, runId, None, mint, at) == Some(s.(effects := s.effects - {n}))
            && ClearEffect(s.(effects := s.effects - {n}), n, effectId) == Some(s.(effects := s.effects - {n}))
  {
    var t := SetEffect(s, n, runId, Some(kind), mint, at).value;
    assert t.effects - {n} == s.effects - {n};
    assert s.effects - {n} - {n} == s.effects - {n};
  }

  // ---------------------------------------------------------------- giving back, keeping and taking again

  /** The slot and the Issue are both at this identity. */
  predicate Holder(s: Aggregate, n: nat, x: Identity) {
    && s.active.Some? && s.active.value.issue == n && n in s.issues
    && s.active.value.runId == x.runId == s.issues[n].runId
    && s.active.value.generation == x.generation == s.issues[n].generation
  }

  /** Exactly the holder gives the slot back; its worker is forgotten, and it cannot do so twice. */
  lemma HolderReleases(s: Aggregate, n: nat, x: Identity)
    ensures ExecutionSlot.Release(s, n, x).Some? <==> Holder(s, n, x)
    ensures Holder(s, n, x) ==>
              var t := ExecutionSlot.Release(s, n, x).value;
              && t.active.None? && n in t.issues && t.issues[n] == s.issues[n].(worker := 0)
              && t == s.(issues := t.issues, active := None) && t.issues - {n} == s.issues - {n}
              && ExecutionSlot.Release(t, n, x).None?
  {
  }

  /** The stage of a checkpoint follows from the status it was taken in. */
  lemma StagesFollow(status: Status)
    ensures StageForStatus(status) == if status.AwaitingChecks? || status.AwaitingMerge? then ChecksStage
                                      else if status.ResolvingConflict? then ConflictStage else ResumeStage
  {
  }

  /** Exactly the holder is checkpointed.  The checkpoint holds its run, generation and base and the Issue's
      workspace, session, head and pull request; a resolved suspension is dropped; and only under the name of
      the checkpoint the slot is taken again, for the same run and base, one generation up. */
  lemma CaptureThenResume(s: Aggregate, n: nat, x: Identity, checkpointId: Id, at: int, name: Id, later: int)
    requires later != 0 && x.generation > 0
    ensures ExecutionSlot.Capture(s, n, x, checkpointId, at).Some? <==> Holder(s, n, x) && checkpointId != 0 && at != 0
    ensures Holder(s, n, x) && checkpointId != 0 && at != 0 ==>
              var t := ExecutionSlot.Capture(s, n, x, checkpointId, at).value;
              && t.active.None? && n in t.issues && t.issues[n].continuation.Some?
              && t == s.(issues := t.issues, active := None) && t.issues - {n} == s.issues - {n}
              && var i, j, c := s.issues[n], t.issues[n], t.issues[n].continuation.value;
              && j == i.(worker := 0, suspension := j.suspension, continuation := j.continuation)
              && c.id == checkpointId && c.createdAt == at && c.runId == x.runId && c.generation == x.generation
              && c.baseSha == s.active.value.baseSha && c.workspace == i.workspace && c.session == i.session
              && c.headSha == i.headSha && c.prUrl == i.prUrl && c.prNumber == i.prNumber
              && c.stage == StageForStatus(i.status) && !c.needsInput && c.worktreeSha == 0
              && (j.suspension.Some? ==> j.suspension == i.suspension && !j.suspension.value.status.Resolved?)
              && (i.suspension.Some? && !i.suspension.value.status.Resolved? ==> j.suspension == i.suspension)
              && (name != checkpointId ==> ResumeFrom(t, n, name, later).None?)
              && ResumeFrom(t, n, checkpointId, later).Some?
              && ResumeFrom(t, n, checkpointId, later).value.active
                 == Some(Execution(n, x.runId, x.generation + 1, s.active.value.baseSha, later))
  {
    hide StageForStatus;
  }

  /** A run is resumed exactly from its own checkpoint with the slot free, one generation up; nothing else of
      the Issue changes. */
  lemma ResumeExactly(s: Aggregate, n: nat, checkpointId: Id, at: int)
    ensures ResumeFrom(s, n, checkpointId, at).Some? <==>
            && at != 0 && s.active.None? && n in s.issues && s.issues[n].continuation.Some?
            && var i, c := s.issues[n], s.issues[n].continuation.value;
               c.id == checkpointId && c.runId == i.runId && 0 < c.generation <= i.generation
    ensures ResumeFrom(s, n, checkpointId, at).Some? ==>
              var i := s.issues[n];
              ResumeFrom(s, n, checkpointId, at) ==
              Some(s.(issues := s.issues[n := i.(generation := i.generation + 1)],
                      active := Some(Execution(n, i.runId, i.generation + 1, i.continuation.value.baseSha, at))))
  {
  }

  /** Exactly the holder hands the slot over; the new run holds it from now on, one generation up and on the
      same base, and the old identity can neither release nor hand over any more. */
  lemma TransferHandsOver(s: Aggregate, n: nat, x: Identity, newRun: Id, at: int)
    ensures ExecutionSlot.Transfer(s, n, x, newRun, at).Some? <==> Holder(s, n, x) && newRun != 0 && at != 0
    ensures Holder(s, n, x) && newRun != 0 && at != 0 ==>
              var t, y := ExecutionSlot.Transfer(s, n, x, newRun, at).value, Identity(newRun, x.generation + 1);
              && Holder(t, n, y) && t.active.value.startedAt == at && t.active.value.baseSha == s.active.value.baseSha
              && t == s.(issues := t.issues, active := t.active) && t.issues - {n} == s.issues - {n}
              && t.issues[n] == s.issues[n].(runId := newRun, generation := x.generation + 1)
              && ExecutionSlot.Release(t, n, y).Some? && ExecutionSlot.Release(t, n, x).None?
              && ExecutionSlot.Transfer(t, n, x, newRun, at).None?
  {
  }

  // ---------------------------------------------------------------- a launch that never started

  /** The evidence that a conflict launch never started: no worker was recorded, and checkpoint, execution,
      conflict and pull request all speak of the same base, head and pull request. */
  predicate NeverStarted(i: Issue, a: Execution) {
    && i.status.Launching? && i.launchSource.ResolvingConflict? && i.worker == 0
    && a.runId == i.runId && a.generation == i.generation && a.generation > 0 && a.startedAt != 0
    && i.continuation.Some? && i.conflict.Some?
    && var c, r := i.continuation.value, i.conflict.value;
    && c.id != 0 && c.runId == i.runId && 0 < c.generation < i.generation && c.createdAt <= a.startedAt
    && (c.stage.ChecksStage? || c.stage.ConflictStage?) && c.workspace == i.workspace
    && a.baseSha == c.baseSha == r.previousBase && i.headSha == c.headSha == r.originalHead
    && i.prUrl == c.prUrl == r.prUrl && r.prUrl != 0 && c.prNumber == i.prNumber
    && r.targetBase != 0 && r.files != []
  }

  /** Such a launch, exactly as observed, goes back to resolving its conflict with the slot free, and its
      checkpoint takes the slot again. */
  lemma UnstartedGoesBack(s: Aggregate, n: nat, expected: Execution, at: int, later: int)
    requires later != 0
    ensures RecoverUnstarted(s, n, expected, at).Some? <==>
            s.active == Some(expected) && expected.issue == n && n in s.issues && NeverStarted(s.issues[n], expected)
    ensures RecoverUnstarted(s, n, expected, at).Some? ==>
              var t := RecoverUnstarted(s, n, expected, at).value;
              && t.active.None? && n in t.issues && t.issues[n].status.ResolvingConflict? && t.issues[n].worker == 0
              && t.issues[n].updatedAt == at && t.issues[n].launchSource.Unset?
              && t.issues[n].generation == s.issues[n].generation
                 && t.issues[n].continuation == s.issues[n].continuation
              && t == s.(issues := t.issues, active := None) && t.issues - {n} == s.issues - {n}
              && ResumeFrom(t, n, s.issues[n].continuation.value.id, later).Some?
  {
  }

  // ---------------------------------------------------------------- the boundary

  /** Authority over an Issue that is not there is released. */
  lemma OrphanIsReleased(s: Aggregate, m: Mint, at: int)
    requires s.active.Some? && s.active.value.issue !in s.issues
    ensures Finalize(s, m, at).active.None?
  {
  }

  /** The checkpoint that the holder had is a question of another run, or there is none. */
  predicate Outdated(i: Issue, a: Execution) {
    i.continuation.None?
    || (i.continuation.value.needsInput
        && !(i.continuation.value.runId == a.runId && i.continuation.value.generation == a.generation))
  }

  /** What an unfinished Issue keeps when the boundary takes its authority: where it worked, with whom, at which
      head and pull request.  An outdated checkpoint gives way to a new one at the stage of the status, without a
      resolved suspension; any other keeps its name, its stage and what was measured of the worktree, and a
      measured publication keeps its head.  A completed or canceled Issue gets no checkpoint. */
  lemma BoundaryKeeps(i: Issue, a: Execution, mint: Id, at: int)
    ensures var j := Parked(i, a, mint, at);
            && j == i.(worker := 0, continuation := j.continuation, suspension := j.suspension)
            && (i.status.Completed? || i.status.Canceled? ==>
                  j.continuation == i.continuation && j.suspension == i.suspension)
            && (!i.status.Completed? && !i.status.Canceled? ==>
                  && j.continuation.Some?
                  && var c := j.continuation.value;
                  && c.createdAt == at && c.runId == a.runId && c.generation == a.generation && c.baseSha == a.baseSha
                  && c.workspace == i.workspace && c.session == i.session
                  && c.prUrl == i.prUrl && c.prNumber == i.prNumber
                  && if Outdated(i, a) then
                       && c.id == mint && c.headSha == i.headSha && c.stage == StageForStatus(i.status)
                       && c.worktreeSha == 0 && !c.needsInput
                       && j.suspension == (if i.suspension.Some? && i.suspension.value.status.Resolved? then None
                                           else i.suspension)
                     else
                       && var b := i.continuation.value;
                       && j.suspension == i.suspension
                       && c.id == b.id && c.worktreeSha == b.worktreeSha && c.needsInput == b.needsInput
                       && c.requestId == b.requestId && c.resultSha == b.resultSha && c.summary == b.summary
                       && c.stage == (if b.stage.NoStage? then StageForStatus(i.status) else b.stage)
                       && c.headSha == (if b.stage.PublishStage? && b.worktreeSha != 0 then b.headSha else i.headSha))
  {
    hide StageForStatus;
  }

  /** The boundary does that to the Issue that loses the slot, then settles every Issue; an Issue that is neither
      completed nor suspended without a suspension stays as it was. */
  lemma BoundaryTouches(s: Aggregate, m: Mint, at: int, n: nat)
    requires n in s.issues
    ensures var t := Finalize(s, m, at);
            && n in t.issues && t.issues.Keys == s.issues.Keys
            && t == s.(issues := t.issues, active := t.active)
            && var lost := s.active.Some? && s.active.value.issue == n && !s.issues[n].status.RequiresActiveExecution();
            && var i := if lost then Parked(s.issues[n], s.active.value, m.checkpoint, at) else s.issues[n];
            && (i.status.Completed? ==> t.issues[n] == i.(continuation := None, suspension := None))
            && (!i.status.Completed? && !(i.status.Suspended() && i.suspension.None?) ==> t.issues[n] == i)
            && (i.status.Suspended() && i.suspension.None? ==>
                  t.issues[n].suspension.Some? && t.issues[n] == i.(suspension := t.issues[n].suspension)
                  && t.issues[n].suspension.value.id == m.suspension(n)
                  && t.issues[n].suspension.value.suspendedAt == at)
  {
    hide Parked, AtBoundary, ReleaseBoundary;
    ReleaseTouches(s, m, at, n);
    Settles(ReleaseBoundary(s, m, at).issues[n], m.suspension(n), at);
  }

  lemma ReleaseTouches(s: Aggregate, m: Mint, at: int, n: nat)
    requires n in s.issues
    ensures var r := ReleaseBoundary(s, m, at);
            && r.issues.Keys == s.issues.Keys && r == s.(issues := r.issues, active := r.active)
            && r.issues[n] ==
               if s.active.Some? && s.active.value.issue == n && !s.issues[n].status.RequiresActiveExecution()
               then Parked(s.issues[n], s.active.value, m.checkpoint, at) else s.issues[n]
  {
    hide Parked;
  }

  lemma Settles(i: Issue, id: Id, at: int)
    ensures var j := AtBoundary(i, id, at);
            && (i.status.Completed? ==> j == i.(continuation := None, suspension := None))
            && (!i.status.Completed? && !(i.status.Suspended() && i.suspension.None?) ==> j == i)
            && (i.status.Suspended() && i.suspension.None? ==>
                  && j.suspension.Some? && j == i.(suspension := j.suspension)
                  && j.suspension.value.id == id && j.suspension.value.suspendedAt == at)
  {
    hide OfferedActions, Missing, Undecided;
  }
}
