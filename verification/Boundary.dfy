/**
 The boundary every update crosses before it commits: authority is released when
 the lifecycle no longer executes, and terminal Issues get a suspension.
 */
module Boundary {
  import opened Wrappers
  import opened Lifecycle
  import opened Aggregate
  import opened ExecutionSlot
  import opened Sorting

  /** Identifiers made up at the boundary. */
  datatype Mint = Mint(checkpoint: Id, suspension: nat -> Id)

  /** The checkpoint kept for an Issue that loses authority. */
  function KeepCheckpoint(i: Issue, a: Execution, mint: Id, at: int): Issue {
    var stale := i.continuation.None?
                 || (i.continuation.value.needsInput
                     && (i.continuation.value.runId != a.runId || i.continuation.value.generation != a.generation));
    var base := if stale then Checkpoint(mint, 0, 0, 0, 0, None, None, 0, 0, 0, 0, NoStage, false, 0, 0, 0)
                else i.continuation.value;
    var c := base.(createdAt := at, runId := a.runId, generation := a.generation, baseSha := a.baseSha,
                   workspace := i.workspace, session := i.session,
                   headSha := if base.stage.PublishStage? && base.worktreeSha != 0 then base.headSha else i.headSha,
                   prUrl := i.prUrl, prNumber := i.prNumber,
                   stage := if base.stage.NoStage? then StageForStatus(i.status) else base.stage);
    i.(continuation := Some(c), suspension := if stale then DropResolved(i) else i.suspension)
  }

  /** What an Issue becomes when its authority is taken away. */
  function Parked(i: Issue, a: Execution, mint: Id, at: int): Issue {
    var kept := if i.status.Completed? || i.status.Canceled? then i else KeepCheckpoint(i, a, mint, at);
    kept.(worker := 0)
  }

  function ReleaseBoundary(s: Aggregate, m: Mint, at: int): Aggregate {
    if s.active.None? then s
    else
      var a := s.active.value;
      if a.issue !in s.issues then s.(active := None)
      else if s.issues[a.issue].status.RequiresActiveExecution() then s
      else WithIssue(s, a.issue, Parked(s.issues[a.issue], a, m.checkpoint, at)).(active := None)
  }

  // ---------------------------------------------------------------- terminal suspensions

  function ByName(): Action -> int { (a: Action) => a.Rank() }

  predicate NoWorktreeDigest(i: Issue) {
    && i.continuation.Some? && (i.continuation.value.stage.ResumeStage? || i.continuation.value.stage.PublishStage?)
    && i.continuation.value.worktreeSha == 0
  }

  /** Whether the evidence leaves the Issue's recovery undecided. */
  predicate Undecided(i: Issue) { NoWorktreeDigest(i) || i.worktree == 0 }

  function Missing(i: Issue): seq<Evidence> {
    (if i.worktree == 0 || i.workspace.None? then [WorkspaceEvidence] else []) +
    (if NoWorktreeDigest(i) then [WorktreeEvidence] else [])
  }

  function OfferedActions(i: Issue): seq<Action> {
    if NoWorktreeDigest(i) then [Cancel]
    else
      [Cancel]
      + (if i.prUrl != 0 then [AdoptPr, RetryStage] else [])
      + (if i.continuation.None? then []
         else if i.continuation.value.stage in {PublishStage, ChecksStage, ConflictStage} then [RetryStage]
         else [Resume])
  }

  const TERMINAL_REASON: Id := 1
  const NEEDS_INPUT_REASON: Id := 2
  const BOUNDARY_REASON: Id := 3

  function TerminalSuspension(i: Issue, id: Id, at: int): Suspension {
    Suspension(
      id, false, if Undecided(i) then Quarantined else Open,
      if i.continuation.Some? && i.continuation.value.needsInput then NEEDS_INPUT_REASON
      else if i.failureKind != 0 then i.failureKind else TERMINAL_REASON,
      if Undecided(i) then Ambiguous else Operator,
      if i.lastError != 0 then i.lastError else BOUNDARY_REASON,
      Missing(i), Canonical(OfferedActions(i), ByName()),
      if i.continuation.Some? then i.continuation.value.id else 0, at, 0, None)
  }

  /** The boundary of one Issue. */
  function AtBoundary(i: Issue, id: Id, at: int): Issue {
    if i.status.Completed? then i.(continuation := None, suspension := None)
    else if i.status.Suspended() && i.suspension.None? then i.(suspension := Some(TerminalSuspension(i, id, at)))
    else i
  }

  function Finalize(s: Aggregate, m: Mint, at: int): Aggregate {
    var r := ReleaseBoundary(s, m, at);
    r.(issues := map n | n in r.issues :: AtBoundary(r.issues[n], m.suspension(n), at))
  }

  lemma NamesAreInjective()
    ensures Injective(ByName())
  {
  }

  /** A suspension made at the boundary: strictly sorted actions that always offer cancel, held in
      quarantine exactly when recovery is ambiguous, and never resolved. */
  lemma BoundarySuspension(i: Issue, id: Id, at: int)
    requires i.status.Suspended() && i.suspension.None?
    ensures var p := AtBoundary(i, id, at).suspension;
            && p.Some? && StrictlyAscending(p.value.actions, ByName()) && Distinct(p.value.actions)
            && Cancel in p.value.actions && AdoptWorktree !in p.value.actions
               && ApproveConflictPaths !in p.value.actions
            && (p.value.status.Quarantined? <==> p.value.recoverability.Ambiguous?)
            && !p.value.status.Resolved?
            && (Resume in p.value.actions || RetryStage in p.value.actions ==> !NoWorktreeDigest(i))
  {
    NamesAreInjective();
    CanonicalSorts(OfferedActions(i), ByName());
  }
}
