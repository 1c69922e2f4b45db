/**
 Operator decisions: cancellation, restoration from quarantine, and resolution of a
 suspended Issue.
 */
module Resolution {
  import opened Wrappers
  import opened Lifecycle
  import opened Aggregate
  import opened ExecutionSlot
  import opened Sorting

  // ---------------------------------------------------------------- cancellation

  function CancelPending(s: Aggregate, n: nat): Aggregate {
    s.(requests := map id | id in s.requests ::
         if s.requests[id].issue == n && s.requests[id].status.Pending? then s.requests[id].(status := Withdrawn)
         else s.requests[id])
  }

  function Resolved(p: Suspension, action: Action, at: int): Suspension {
    p.(status := SuspensionStatus.Resolved, resolution := Some(action), resolvedAt := at)
  }

  /** What cancelling a closed Issue demands: nothing about it changed, its authority is its own, and
      no worker, question or other effect is outstanding. */
  predicate CancelAllowed(s: Aggregate, n: nat, status: Status, x: Identity) {
    && n in s.issues
    && var i := s.issues[n];
    && i.status == status && IsIdentity(i, x)
    && (s.active.Some? && s.active.value.issue == n ==> s.active.value.Owner() == x)
    && i.worker == 0 && !HasPending(s, n)
    && (n in s.effects ==>
          s.effects[n].runId == i.runId && (s.effects[n].kind.MarkBlocked? || s.effects[n].kind.MarkFailed?))
    && i.notPlanned && Reconcile(i.status, Canceled).Some?
  }

  /** The Issue once canceled, with the evidence of it. */
  function ClosedForm(i: Issue, released: bool, at: int): Issue {
    var j := Move(i, Canceled);
    j.(suspension := if j.suspension.Some? then Some(Resolved(j.suspension.value, Cancel, at)) else None,
       cancellation := Some(Cancellation(GitHubNotPlanned, i.status, released, at)), lastError := 0,
           retryAfter := 0, updatedAt := at)
  }

  /** GitHub closed the Issue as not planned: cancel it, giving back any authority it holds. */
  function CancelNotPlanned(s: Aggregate, n: nat, status: Status, x: Identity, at: int): Option<Aggregate> {
    if at == 0 || !CancelAllowed(s, n, status, x) then None
    else
      var owned := s.active.Some? && s.active.value.issue == n;
      match (if owned then Release(s, n, x) else Some(s))
      case None => None
      case Some(t) => Some(WithIssue(t, n, ClosedForm(t.issues[n], owned, at)).(effects := t.effects - {n}))
  }

  /** Cancels an Issue that only exists as a quarantine record. */
  function CancelQuarantined(s: Aggregate, n: nat, at: int): Option<Aggregate> {
    if n !in s.quarantined || n in s.issues || at == 0 then None
    else if s.active.Some? && s.active.value.issue == n then None
    else
      var q := s.quarantined[n];
      var base := if q.lastValid.None? then NEW_ISSUE
                  else
                    var v := q.lastValid.value;
                    NEW_ISSUE.(worktree := v.worktree, workspace := v.workspace, session := v.session,
                        answers := v.answers,
                               attempts := v.attempts, prUrl := v.prUrl, prNumber := v.prNumber, headSha := v.headSha,
                               merged := v.merged, details := v.details);
      var i := base.(runId := q.runId, generation := q.generation, status := Canceled,
                     cancellation := Some(Cancellation(OperatorQuarantine, Blocked, false, at)), updatedAt := at);
      Some(WithIssue(s, n, i).(quarantined := s.quarantined - {n}))
  }

  // ---------------------------------------------------------------- restoration from quarantine

  /** The rejected second-question boundary that a resolved suspension leaves. */
  predicate InputCandidate(q: Record) {
    && q.rejected.NeedsInput? && q.lastValid.Some? && |q.requests| == 1
    && var i, r := q.lastValid.value, q.requests[0];
    && i.continuation.Some? && i.suspension.Some?
    && var c, p := i.continuation.value, i.suspension.value;
    && i.status.Running? && i.runId == q.runId && i.generation == q.generation
    && p.status.Resolved? && p.checkpointId == c.id
    && r.runId == i.runId && r.released == Some(Identity(i.runId, i.generation))
    && r.id != 0 && r.checkpointId != 0 && r.checkpointId != c.id && r.createdAt != 0
    && !r.status.Withdrawn?
    && i.session.Some? && i.session == c.session && i.workspace.Some? && i.workspace == c.workspace
    && i.conflict.None? && i.prUrl == 0 && i.prNumber == 0 && c.baseSha != 0
  }

  function RestoreInput(s: Aggregate, n: nat, head: Id, digest: Id, at: int): Option<Aggregate> {
    if n !in s.quarantined || !InputCandidate(s.quarantined[n]) then None
    else
      var q := s.quarantined[n];
      var i, r := q.lastValid.value, q.requests[0];
      if r.issue != n || n in s.issues || s.active.Some? || head == 0 || digest == 0 || at == 0
          || r.id in s.requests then None
      else
        var c := Checkpoint(r.checkpointId, r.createdAt, i.runId, i.generation, i.continuation.value.baseSha,
            i.workspace,
                            i.session, head, digest, 0, 0, ResumeStage, true, r.id, 0, 0);
        var j := Move(i.(suspension := None, worker := 0, continuation := Some(c)), NeedsInput)
                   .(lastError := 0, failureKind := 0, retryAfter := 0, updatedAt := at);
        Some(s.(issues := s.issues[n := j], requests := s.requests[r.id := r], quarantined := s.quarantined - {n}))
  }

  /** How many delivered answers repeat this request's answer exactly. */
  function Receipts(answers: seq<Answer>, r: Request): nat
    requires r.answeredAt.Some?
  {
    if answers == [] then 0
    else (if answers[0] == AnswerOf(r) then 1 else 0) + Receipts(answers[1..], r)
  }

  predicate ChecksRequest(r: Request, n: nat, i: Issue) {
    && r.issue == n && r.runId == i.runId && r.status.Answered? && r.answer != 0
    && r.answeredAt.Some? && r.answeredAt.value != 0 && Receipts(i.answers, r) == 1
  }

  /** The request whose answer the rejected launch was resuming from. */
  predicate ResumedFrom(r: Request, i: Issue, c: Checkpoint) {
    && r.id == c.requestId && r.checkpointId == c.id && r.released.Some?
    && r.released.value.runId == i.runId && r.released.value.generation + 1 == i.generation
  }

  /** A rejected launch that retried the checks of an answered question. */
  predicate ChecksCandidate(q: Record, n: nat) {
    && q.rejected.Launching? && q.lastValid.Some?
    && var i := q.lastValid.value;
    && i.status.RetryWait? && i.runId == q.runId && i.generation != 0 && i.generation + 1 == q.generation
    && i.worker == 0 && i.suspension.None? && i.conflict.None?
    && i.prUrl != 0 && i.prNumber > 0 && i.headSha != 0 && !i.merged
    && i.continuation.Some?
    && var c := i.continuation.value;
    && c.needsInput && c.requestId != 0 && c.runId == i.runId && c.generation == i.generation && c.baseSha != 0
    && c.prUrl == i.prUrl && c.prNumber == i.prNumber && c.stage.ResumeStage?
    && i.session.Some? && i.session == c.session && i.workspace.Some? && i.workspace == c.workspace
    && (forall k :: 0 <= k < |q.requests| ==> ChecksRequest(q.requests[k], n, i))
    && (forall k :: 0 <= k < |q.requests| ==> q.requests[k].id == c.requestId ==> ResumedFrom(q.requests[k], i, c))
    && (exists k :: 0 <= k < |q.requests| && q.requests[k].id == c.requestId)
    && (forall j, k :: 0 <= j < k < |q.requests| && q.requests[j].id == c.requestId ==> q.requests[k].id != c.requestId)
  }

  function PutAll(m: map<Id, Request>, rs: seq<Request>): map<Id, Request>
    decreases |rs|
  {
    if rs == [] then m else PutAll(m[rs[0].id := rs[0]], rs[1..])
  }

  /** Puts a quarantined Issue back one generation before the value that was rejected. */
  function RestoreAnsweredChecks(s: Aggregate, n: nat, head: Id, digest: Id, mint: Id, at: int): Option<Aggregate> {
    if n !in s.quarantined || !ChecksCandidate(s.quarantined[n], n) then None
    else
      var q := s.quarantined[n];
      var i := q.lastValid.value;
      if n in s.issues || s.active.Some? || head == 0 || digest == 0 || at == 0 then None
      else if exists k :: 0 <= k < |q.requests| && q.requests[k].id in s.requests then None
      else
        var c := Checkpoint(mint, at, i.runId, i.generation, i.continuation.value.baseSha, i.workspace, i.session,
                            head, digest, i.prUrl, i.prNumber, ChecksStage, false, 0, 0, 0);
        var j := Move(i.(continuation := Some(c)), AwaitingChecks).(retryAfter := 0, updatedAt := at);
        Some(s.(issues := s.issues[n := j], requests := PutAll(s.requests, q.requests),
            quarantined := s.quarantined - {n}))
  }

  // ---------------------------------------------------------------- operator resolution

  /** What the operator's tooling observed; any value is possible. */
  datatype Observation = Observation(
    headSha: Id, worktreeSha: Id, paths: seq<Path>, pathsValid: bool, summary: Id, resultSha: Id,
    repairHead: bool, prUrl: Id, prNumber: nat, notPlanned: bool)

  predicate CanAdoptHead(i: Issue) {
    && i.continuation.Some? && i.suspension.Some? && i.status.Suspended()
    && var c, p := i.continuation.value, i.suspension.value;
    && p.status.Open? && p.fromWorker && Action.Resume in p.actions && p.checkpointId == c.id
    && c.runId == i.runId && c.generation == i.generation && c.stage.ResumeStage? && c.headSha == 0
       && c.worktreeSha != 0
    && c.session.Some? && c.workspace.Some? && c.workspace == i.workspace
    && i.worker == 0 && i.conflict.None? && i.prUrl == 0 && i.prNumber == 0 && c.prUrl == 0 && c.prNumber == 0
  }

  predicate CanAdoptWorktree(i: Issue) {
    && i.status.Suspended() && i.continuation.Some? && i.continuation.value.worktreeSha == 0 && i.conflict.Some?
    && i.suspension.Some?
    && var p := i.suspension.value;
    && p.status.Quarantined? && p.recoverability.Ambiguous? && p.checkpointId == i.continuation.value.id
    && p.missing == [WorktreeEvidence] && p.actions == [Action.Cancel]
  }

  predicate CanApprovePaths(i: Issue) {
    && i.continuation.Some? && i.suspension.Some? && i.conflict.Some? && i.workspace.Some? && i.status.Suspended()
    && var c, p, r := i.continuation.value, i.suspension.value, i.conflict.value;
    && p.status.Open? && p.recoverability.Operator? && Action.RetryStage in p.actions
    && (c.stage.ResumeStage? || c.stage.ConflictStage?)
    && i.runId != 0 && c.runId == i.runId && c.generation != 0 && c.generation == i.generation
    && p.id != 0 && c.id != 0 && p.checkpointId == c.id && p.missing == []
    && c.worktreeSha != 0 && c.headSha != 0 && c.headSha == i.headSha && r.originalHead == c.headSha
    && r.targetBase != 0 && r.allowedPaths != [] && c.baseSha != 0
    && i.prNumber > 0 && c.prNumber == i.prNumber && i.prUrl != 0 && c.prUrl == i.prUrl && r.prUrl == i.prUrl
    && c.workspace == i.workspace && i.worker == 0
  }

  function ByValue(): Path -> int { (p: Path) => p }

  function ExtendPaths(r: Conflict, paths: seq<Path>): Conflict {
    r.(allowedPaths := Canonical(r.allowedPaths + paths, ByValue()))
  }

  /** The checkpoint identity that adoption and resumption both demand. */
  predicate OwnCheckpoint(i: Issue) {
    && i.continuation.Some?
    && i.continuation.value.runId == i.runId && 0 < i.continuation.value.generation <= i.generation
  }

  function ApprovePaths(s: Aggregate, n: nat, o: Observation): Option<Aggregate>
    requires n in s.issues
  {
    var i := s.issues[n];
    if !CanApprovePaths(i) || o.headSha != i.headSha || o.worktreeSha != i.continuation.value.worktreeSha
        || o.paths == [] then None
    else if HasPending(s, n) || !o.pathsValid then None
    else Some(WithIssue(s, n, i.(conflict := Some(ExtendPaths(i.conflict.value, o.paths)))))
  }

  function AdoptHeadSha(s: Aggregate, n: nat, o: Observation, at: int): Option<Aggregate>
    requires n in s.issues
  {
    var i := s.issues[n];
    if !CanAdoptHead(i) || o.headSha == 0 || !OwnCheckpoint(i) then None
    else Some(WithIssue(s, n, i.(continuation := Some(i.continuation.value.(headSha := o.headSha)), updatedAt := at)))
  }

  function AdoptWorktreeSha(s: Aggregate, n: nat, o: Observation, at: int): Option<Aggregate>
    requires n in s.issues
  {
    var i := s.issues[n];
    if !CanAdoptWorktree(i) || o.worktreeSha == 0 || !OwnCheckpoint(i) then None
    else if !(i.continuation.value.stage.ResumeStage? || i.continuation.value.stage.ConflictStage?) then None
    else
      var c := i.continuation.value.(worktreeSha := o.worktreeSha, stage := ConflictStage);
      var p := i.suspension.value.(status := Open, recoverability := Operator, missing := [],
          actions := [Action.Cancel, Action.RetryStage]);
      Some(WithIssue(s, n, i.(continuation := Some(c), suspension := Some(p),
                              conflict := Some(ExtendPaths(i.conflict.value, o.paths)), updatedAt := at)))
  }

  predicate Offered(i: Issue, action: Action)
    requires i.suspension.Some?
  {
    && action in i.suspension.value.actions
    && (i.suspension.value.status.Open? || (i.suspension.value.status.Quarantined? && action.Cancel?))
  }

  function StageOf(i: Issue): Stage { if i.continuation.Some? then i.continuation.value.stage else NoStage }

  /** What resume and retry-stage demand of the Issue and of the observation. */
  predicate RelaunchAllowed(i: Issue, action: Action, o: Observation)
    requires i.suspension.Some?
  {
    && Offered(i, action) && Resolve(i.status, action, StageOf(i)).Some?
    && OwnCheckpoint(i) && i.suspension.value.checkpointId == i.continuation.value.id
    && (action.RetryStage? && StageOf(i).PublishStage? ==>
          o.summary != 0 && o.resultSha != 0 && (o.repairHead ==> o.headSha != 0))
    && (action.RetryStage? && StageOf(i).ChecksStage? ==> o.headSha != 0 && o.prNumber != 0)
  }

  /** A retried publication takes the observed result into the checkpoint; a retried conflict starts over. */
  function Retried(i: Issue, action: Action, o: Observation, at: int): Issue
    requires i.continuation.Some?
  {
    if !action.RetryStage? then i
    else
      var c := i.continuation.value;
      var head := if o.repairHead then o.headSha else c.headSha;
      var c' := c.(headSha := head, summary := o.summary, resultSha := o.resultSha);
      i.(continuation := Some(if c.stage.PublishStage? then c' else c),
         conflict := if i.conflict.Some? then Some(i.conflict.value.(attempts := 0, updatedAt := at)) else None)
  }

  /** After the slot is taken: move on, and hand the resolution to the supervisor. */
  function HandOver(
      s: Aggregate, n: nat, to: Status, action: Action, o: Observation, mint: Id, at: int): Option<Aggregate>
    requires n in s.issues
  {
    var checks := action.RetryStage? && StageOf(s.issues[n]).ChecksStage?;
    var j := Move(s.issues[n], to);
    var k := if checks then j.(headSha := o.headSha, prNumber := o.prNumber) else j;
    match SetEffect(WithIssue(s, n, k), n, k.runId, Some(ApplyResolution), mint, at)
    case None => None
    case Some(u) => Some(CloseSuspension(u, n, action, at))
  }

  /** Resume and retry-stage: take the free slot and hand the resolution to the supervisor. */
  function Relaunch(s: Aggregate, n: nat, action: Action, o: Observation, mint: Id, at: int): Option<Aggregate>
    requires n in s.issues && s.issues[n].suspension.Some? && (action.Resume? || action.RetryStage?)
  {
    var i := s.issues[n];
    if !RelaunchAllowed(i, action, o) then None
    else match ResumeFrom(WithIssue(s, n, Retried(i, action, o, at)), n, i.continuation.value.id, at)
      case None => None
      case Some(t) => HandOver(t, n, Resolve(i.status, action, StageOf(i)).value, action, o, mint, at)
  }

  function CloseSuspension(s: Aggregate, n: nat, action: Action, at: int): Aggregate
    requires n in s.issues
  {
    var i := s.issues[n];
    WithIssue(s, n, i.(suspension := if i.suspension.Some? then Some(Resolved(i.suspension.value, action, at))
        else None, updatedAt := at))
  }

  function AdoptMerged(s: Aggregate, n: nat, o: Observation, mint: Id, at: int): Option<Aggregate>
    requires n in s.issues && s.issues[n].suspension.Some?
  {
    var i := s.issues[n];
    if !Offered(i, AdoptPr) || Resolve(i.status, AdoptPr, StageOf(i)).None? then None
    else if o.prUrl == 0 || o.prNumber == 0 || o.headSha == 0 then None
    else
      var j := i.(prUrl := o.prUrl, prNumber := o.prNumber, headSha := o.headSha, merged := true,
                  suspension := Some(Resolved(i.suspension.value, AdoptPr, at)));
      match SetEffect(WithIssue(s, n, j), n, j.runId, Some(MarkDone), mint, at)
      case None => None
      case Some(t) => Some(CloseSuspension(WithIssue(t, n, Move(j, Completed)), n, AdoptPr, at))
  }

  function CancelSuspended(s: Aggregate, n: nat, o: Observation, mint: Id, at: int): Option<Aggregate>
    requires n in s.issues && s.issues[n].suspension.Some?
  {
    var i := s.issues[n];
    if !Offered(i, Action.Cancel) || Resolve(i.status, Action.Cancel, StageOf(i)).None? then None
    else
      var j := Move(i, Canceled).(cancellation := Some(Cancellation(OperatorResolution, i.status, false, at)),
          notPlanned := o.notPlanned);
      match SetEffect(CancelPending(WithIssue(s, n, j), n), n, i.runId, None, mint, at)
      case None => None
      case Some(t) => Some(CloseSuspension(t, n, Action.Cancel, at))
  }

  /** The operator resolves the suspension of one Issue. */
  function ResolveOperator(s: Aggregate, n: nat, action: Action, o: Observation, mint: Id, at: int): Option<Aggregate> {
    if at == 0 || n !in s.issues || s.issues[n].runId == 0 || s.issues[n].suspension.None?
        || s.issues[n].worker != 0 then None
    else if s.active.Some? && (!(action.Cancel? || action.AdoptPr?) || s.active.value.issue == n) then None
    else match action
      case ApproveConflictPaths => ApprovePaths(s, n, o)
      case AdoptHead => AdoptHeadSha(s, n, o, at)
      case AdoptWorktree => AdoptWorktreeSha(s, n, o, at)
      case Resume => Relaunch(s, n, action, o, mint, at)
      case RetryStage => Relaunch(s, n, action, o, mint, at)
      case AdoptPr => AdoptMerged(s, n, o, mint, at)
      case Cancel => CancelSuspended(s, n, o, mint, at)
      case AdoptInput => None
  }
}
