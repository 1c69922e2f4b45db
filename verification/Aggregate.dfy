/**
 The repository aggregate that one snapshot holds: Issues, quarantine records,
 requests, effects and the single active execution.

 Identifiers, digests and texts are numbers, zero standing for the empty string;
 times are integers, zero standing for the zero time.
 */
module Aggregate {
  import opened Wrappers
  import opened Lifecycle

  type Id = nat
  type Path = nat

  datatype Identity = Identity(runId: Id, generation: nat)

  datatype Execution = Execution(issue: nat, runId: Id, generation: nat, baseSha: Id, startedAt: int)
  {
    function Owner(): Identity { Identity(runId, generation) }
  }

  datatype Checkpoint = Checkpoint(
    id: Id, createdAt: int, runId: Id, generation: nat, baseSha: Id,
    workspace: Option<Id>, session: Option<Id>, headSha: Id, worktreeSha: Id,
    prUrl: Id, prNumber: nat, stage: Stage, needsInput: bool, requestId: Id, resultSha: Id, summary: Id)

  datatype SuspensionStatus = Open | Quarantined | Resolved

  datatype Recoverability = Operator | Automatic | Unrecoverable | Ambiguous

  datatype Evidence = WorkspaceEvidence | WorktreeEvidence

  datatype Suspension = Suspension(
    id: Id, fromWorker: bool, status: SuspensionStatus, reasonCode: Id, recoverability: Recoverability, reason: Id,
    missing: seq<Evidence>, actions: seq<Action>, checkpointId: Id, suspendedAt: int,
    resolvedAt: int, resolution: Option<Action>)

  datatype Answer = Answer(requestId: Id, question: Id, answer: Id, answeredAt: int)

  datatype Conflict = Conflict(
    prUrl: Id, previousBase: Id, targetBase: Id, originalHead: Id, files: seq<Path>, allowedPaths: seq<Path>,
    attempts: nat, updatedAt: int)

  datatype Cancellation = Cancellation(source: CancelSource, previous: Status, released: bool, canceledAt: int)

  datatype CancelSource = GitHubNotPlanned | OperatorResolution | OperatorQuarantine

  datatype Issue = Issue(
    status: Status, runId: Id, generation: nat, launchSource: Status, worker: nat,
    continuation: Option<Checkpoint>, suspension: Option<Suspension>, answers: seq<Answer>,
    worktree: Id, workspace: Option<Id>, session: Option<Id>,
    prUrl: Id, prNumber: nat, merged: bool, headSha: Id, notPlanned: bool, cancellation: Option<Cancellation>,
    failureKind: Id, lastError: Id, conflict: Option<Conflict>, retryAfter: int, attempts: nat, updatedAt: int,
    details: Id)

  const NEW_ISSUE := Issue(
    Unset, 0, 0, Unset, 0, None, None, [], 0, None, None, 0, 0, false, 0, false, None, 0, 0, None, 0, 0, 0, 0)

  datatype RequestStatus = Pending | Answered | Withdrawn

  datatype Request = Request(
    id: Id, issue: nat, question: Id, resumeStatus: Status, runId: Id, checkpointId: Id,
    released: Option<Identity>, status: RequestStatus, answer: Id, answeredAt: Option<int>, createdAt: int,
    provenance: Id)

  datatype Record = Record(
    runId: Id, generation: nat, rejected: Status, lastValid: Option<Issue>, requests: seq<Request>, quarantinedAt: int)

  datatype EffectKind = MarkDone | MarkNeedsInput | MarkFailed | MarkBlocked | RetryConflict | ApplyResolution

  datatype Effect = Effect(id: Id, runId: Id, kind: EffectKind, createdAt: int)

  datatype Aggregate = Aggregate(
    issues: map<nat, Issue>, quarantined: map<nat, Record>, requests: map<Id, Request>,
    effects: map<nat, Effect>, active: Option<Execution>, releasedAt: int)

  /** Execution identity and ownership, as every caller checks them. */
  predicate Owns(s: Aggregate, n: nat, x: Identity) {
    s.active.Some? && s.active.value.issue == n && s.active.value.Owner() == x
  }

  predicate HasPending(s: Aggregate, n: nat) {
    exists id :: id in s.requests && s.requests[id].issue == n && s.requests[id].status.Pending?
  }

  // ---------------------------------------------------------------- the validator

  /** At most one Issue is in an executing status, and exactly that one holds the active execution. */
  predicate ExecutionValid(s: Aggregate) {
    && (forall n :: n in s.issues && s.issues[n].status.RequiresActiveExecution() ==>
          && s.active.Some? && s.active.value.issue == n
          && s.active.value.Owner() == Identity(s.issues[n].runId, s.issues[n].generation)
          && s.active.value.generation > 0 && s.active.value.startedAt != 0)
    && (s.active.Some? ==>
          s.active.value.issue in s.issues && s.issues[s.active.value.issue].status.RequiresActiveExecution())
  }

  predicate CheckpointValid(i: Issue) {
    i.continuation.Some? ==>
      var c := i.continuation.value;
      c.id != 0 && c.runId != 0 && 0 < c.generation <= i.generation && c.createdAt != 0 && !c.stage.NoStage?
  }

  predicate Distinct(actions: seq<Action>) {
    forall i, j :: 0 <= i < j < |actions| ==> actions[i] != actions[j]
  }

  predicate SuspensionValid(i: Issue) {
    i.suspension.Some? ==>
      var p := i.suspension.value;
      && (i.status.Completed? ==> p.status.Resolved? && p.resolution == Some(AdoptPr) && i.continuation.Some?)
      && (!i.status.Terminal() ==> p.status.Resolved?)
      && p.id != 0 && p.reasonCode != 0 && p.reason != 0 && p.suspendedAt != 0 && p.actions != []
      && (p.status.Resolved? <==> p.resolution.Some?) && (p.status.Resolved? <==> p.resolvedAt != 0)
      && (p.resolution.Some? ==> p.resolution.value != AdoptWorktree && p.resolution.value != ApproveConflictPaths)
      && Distinct(p.actions) && AdoptWorktree !in p.actions && ApproveConflictPaths !in p.actions
      && (p.checkpointId != 0 ==> i.continuation.Some? && i.continuation.value.id == p.checkpointId)
  }

  predicate CancellationValid(i: Issue) {
    && (i.status.Canceled? <==> i.cancellation.Some?)
    && (i.status.Canceled? ==> i.cancellation.value.previous.Suspended() && i.cancellation.value.canceledAt != 0)
    && (i.status.Canceled? && i.suspension.Some? ==>
          i.suspension.value.status.Resolved? && i.suspension.value.resolution == Some(Cancel))
  }

  predicate IssueValid(i: Issue) {
    && (i.worker > 0 ==> i.runId != 0 && i.status.RequiresActiveExecution())
    && (i.status.Running? ==> i.worker > 0)
    && (if i.status.Launching? then i.launchSource in {Claimed, ResumePending, RetryWait, ResolvingConflict}
        else i.launchSource.Unset?)
    && (i.generation > 0 ==> i.runId != 0)
    && (i.prNumber > 0 ==> i.prUrl != 0)
    && (i.merged ==> i.prNumber > 0 && i.prUrl != 0 && i.headSha != 0)
    && CheckpointValid(i) && SuspensionValid(i) && CancellationValid(i)
  }

  predicate EffectValid(s: Aggregate, n: nat) {
    n in s.effects ==>
      var e := s.effects[n];
      && e.id != 0 && e.runId != 0 && e.createdAt != 0
      && n in s.issues && s.issues[n].runId == e.runId
      && match e.kind
         case MarkDone => s.issues[n].status.Completed?
         case MarkNeedsInput => s.issues[n].status.NeedsInput?
         case MarkFailed => s.issues[n].status.Failed?
         case MarkBlocked => s.issues[n].status.Blocked?
         case RetryConflict => s.issues[n].status.ResolvingConflict?
         case ApplyResolution =>
           !s.issues[n].status.Terminal() && s.issues[n].suspension.Some?
               && s.issues[n].suspension.value.status.Resolved?
  }

  predicate RequestValid(s: Aggregate, id: Id) {
    id in s.requests ==>
      var r := s.requests[id];
      && id != 0 && r.id == id && r.issue in s.issues
      && (r.status.Answered? ==> r.answer != 0)
      && (!r.status.Answered? ==> r.answer == 0 && r.answeredAt.None? && r.provenance == 0)
  }

  /** The aggregate validator; `rest` stands for its remaining checks, whatever they are. */
  predicate Valid(rest: Aggregate -> bool, s: Aggregate) {
    && ExecutionValid(s)
    && (forall n :: n in s.issues ==> n > 0 && IssueValid(s.issues[n]))
    && (forall n :: n in s.quarantined ==> n > 0 && n !in s.issues && s.quarantined[n].quarantinedAt != 0)
    && (forall n :: n in s.effects ==> EffectValid(s, n))
    && (forall id :: id in s.requests ==> RequestValid(s, id))
    && rest(s)
  }
}
