/**
 Execution authority: the operations on the single active execution.

 Each operation gives the next aggregate, or nothing when the source returns an
 error, in which case the whole update is discarded.
 */
module ExecutionSlot {
  import opened Wrappers
  import opened Lifecycle
  import opened Aggregate

  // ---------------------------------------------------------------- lifecycle transitions and effects

  function Move(i: Issue, to: Status): Issue {
    var cleared := to.Terminal() && !i.status.Terminal() && i.suspension.Some? && i.suspension.value.status.Resolved?;
    i.(status := to,
       launchSource := if i.status.Launching? && !to.Launching? then Unset else i.launchSource,
       continuation := if to.Completed? then None else i.continuation,
       suspension := if to.Completed? || cleared then None else i.suspension)
  }

  function Transition(i: Issue, d: Decision): Option<Issue> {
    match Decide(d, i.status)
    case None => None
    case Some(to) => Some(Move(i, to))
  }

  function WithIssue(s: Aggregate, n: nat, i: Issue): Aggregate { s.(issues := s.issues[n := i]) }

  function SetEffect(s: Aggregate, n: nat, runId: Id, kind: Option<EffectKind>, mint: Id, at: int): Option<Aggregate> {
    if n < 1 || runId == 0 || at == 0 then None
    else if kind.None? then Some(s.(effects := s.effects - {n}))
    else if n in s.effects && s.effects[n].runId == runId && s.effects[n].kind == kind.value then Some(s)
    else Some(s.(effects := s.effects[n := Effect(mint, runId, kind.value, at)]))
  }

  function ClearEffect(s: Aggregate, n: nat, effectId: Id): Option<Aggregate> {
    if n !in s.effects then Some(s)
    else if s.effects[n].id != effectId then None
    else Some(s.(effects := s.effects - {n}))
  }

  // ---------------------------------------------------------------- start

  predicate Delivered(answers: seq<Answer>, id: Id) {
    exists k :: 0 <= k < |answers| && answers[k].requestId == id
  }

  function AnswerOf(r: Request): Answer
    requires r.answeredAt.Some?
  {
    Answer(r.id, r.question, r.answer, r.answeredAt.value)
  }

  /** A question asked before the Issue had a run, and answered since. */
  predicate IntakeAnswered(r: Request, n: nat) {
    r.issue == n && r.runId == 0 && r.status.Answered? && r.answeredAt.Some?
  }

  /** Appends the intake answers in the given iteration order, each at most once. */
  function Deliver(requests: map<Id, Request>, n: nat, order: seq<Id>, answers: seq<Answer>): seq<Answer> {
    if order == [] then answers
    else
      var id, rest := order[0], order[1..];
      if id in requests && IntakeAnswered(requests[id], n) && !Delivered(answers, requests[id].id)
      then Deliver(requests, n, rest, answers + [AnswerOf(requests[id])])
      else Deliver(requests, n, rest, answers)
  }

  function IssueAt(s: Aggregate, n: nat): Issue {
    if n in s.issues then s.issues[n] else NEW_ISSUE
  }

  /** Claims the free slot for a new run, or repeats a start that already holds it. */
  function Start(s: Aggregate, n: nat, runId: Id, baseSha: Id, at: int, order: seq<Id>): Option<Aggregate> {
    if n < 1 || runId == 0 || n in s.quarantined then None
    else if s.active.Some? then
      if s.active.value.issue == n && s.active.value.runId == runId then Some(s) else None
    else if HasPending(s, n) then None
    else match Transition(IssueAt(s, n), StartClaim)
      case None => None
      case Some(i) =>
        var g := i.generation + 1;
        var i' := i.(generation := g, runId := runId, answers := Deliver(s.requests, n, order, i.answers),
                     attempts := if i.attempts == 0 then 1 else i.attempts, updatedAt := at);
        Some(WithIssue(s, n, i').(active := Some(Execution(n, runId, g, baseSha, at))))
  }

  // ---------------------------------------------------------------- release, capture, resume, transfer

  predicate IsIdentity(i: Issue, x: Identity) { i.runId == x.runId && i.generation == x.generation }

  function Release(s: Aggregate, n: nat, x: Identity): Option<Aggregate> {
    if !Owns(s, n, x) || n !in s.issues || !IsIdentity(s.issues[n], x) then None
    else Some(WithIssue(s, n, s.issues[n].(worker := 0)).(active := None))
  }

  function DropResolved(i: Issue): Option<Suspension> {
    if i.suspension.Some? && i.suspension.value.status.Resolved? then None else i.suspension
  }

  function Capture(s: Aggregate, n: nat, x: Identity, checkpointId: Id, at: int): Option<Aggregate> {
    if checkpointId == 0 || at == 0 || !Owns(s, n, x) || n !in s.issues then None
    else
      var i := s.issues[n];
      var c := Checkpoint(checkpointId, at, x.runId, x.generation, s.active.value.baseSha, i.workspace, i.session,
                          i.headSha, 0, i.prUrl, i.prNumber, StageForStatus(i.status), false, 0, 0, 0);
      Release(WithIssue(s, n, i.(suspension := DropResolved(i), continuation := Some(c))), n, x)
  }

  /** Takes the free slot again for the run a checkpoint kept, under a new generation. */
  function ResumeFrom(s: Aggregate, n: nat, checkpointId: Id, at: int): Option<Aggregate> {
    if at == 0 || s.active.Some? || n !in s.issues then None
    else
      var i := s.issues[n];
      if i.continuation.None? || i.continuation.value.id != checkpointId then None
      else
        var c := i.continuation.value;
        if c.runId != i.runId || c.generation == 0 || c.generation > i.generation then None
        else
          var g := i.generation + 1;
          Some(WithIssue(s, n, i.(generation := g)).(active := Some(Execution(n, i.runId, g, c.baseSha, at))))
  }

  function Transfer(s: Aggregate, n: nat, x: Identity, newRun: Id, at: int): Option<Aggregate> {
    if newRun == 0 || at == 0 || !Owns(s, n, x) || n !in s.issues || !IsIdentity(s.issues[n], x) then None
    else
      var i := s.issues[n];
      var g := i.generation + 1;
      Some(WithIssue(s, n, i.(generation := g, runId := newRun))
             .(active := Some(s.active.value.(runId := newRun, generation := g, startedAt := at))))
  }

  // ---------------------------------------------------------------- a conflict launch that never started

  predicate UnstartedConflictLaunch(s: Aggregate, n: nat) {
    && s.active.Some? && n in s.issues
    && var a, i := s.active.value, s.issues[n];
    && i.status.Launching? && i.launchSource.ResolvingConflict? && i.worker == 0
    && a.issue == n && a.runId == i.runId && a.generation == i.generation && a.generation != 0 && a.startedAt != 0
    && i.continuation.Some? && i.conflict.Some?
    && var c, r := i.continuation.value, i.conflict.value;
    && c.id != 0 && c.runId == i.runId && 0 < c.generation < i.generation && c.createdAt <= a.startedAt
    && c.baseSha == a.baseSha && c.headSha == i.headSha && c.prUrl == i.prUrl && c.prNumber == i.prNumber
    && c.workspace == i.workspace && (c.stage.ChecksStage? || c.stage.ConflictStage?)
    && r.prUrl != 0 && r.prUrl == i.prUrl && r.previousBase == a.baseSha && r.targetBase != 0
    && r.originalHead == i.headSha && r.files != []
  }

  /** Gives back the authority of a conflict launch for which no worker was ever recorded. */
  function RecoverUnstarted(s: Aggregate, n: nat, expected: Execution, at: int): Option<Aggregate> {
    if s.active != Some(expected) || !UnstartedConflictLaunch(s, n) then None
    else
      var i := s.issues[n];
      match Release(s, n, Identity(i.runId, i.generation))
      case None => None
      case Some(s1) => ApplyTo(s1, n, AbortWorkerLaunch(i.launchSource), at)
  }

  function ApplyTo(s: Aggregate, n: nat, d: Decision, at: int): Option<Aggregate> {
    if n !in s.issues then None
    else match Transition(s.issues[n], d)
      case None => None
      case Some(i) => Some(WithIssue(s, n, i.(updatedAt := at)))
  }
}
