/**
 Updates of the aggregate: a mutation is a sequence of primitive steps, followed by
 the boundary, validation, and either a commit or the isolation of one Issue.
 */
module Authority {
  import opened Wrappers
  import opened Lifecycle
  import opened Aggregate
  import opened ExecutionSlot
  import opened Boundary
  import opened Resolution
  import opened Answers
  import opened Isolation

  /** The steps an update's mutation is made of. */
  datatype Step =
    | Start(n: nat, runId: Id, baseSha: Id, at: int, order: seq<Id>)
    | Release(n: nat, x: Identity)
    | Capture(n: nat, x: Identity, checkpointId: Id, at: int)
    | ResumeRun(n: nat, checkpointId: Id, at: int)
    | Transfer(n: nat, x: Identity, newRun: Id, at: int)
    | Apply(n: nat, d: Decision, at: int)
    | RecoverLaunch(n: nat, expected: Execution, at: int)
    | ResolveIssue(n: nat, action: Action, o: Observation, mint: Id, at: int)
    | RestoreQuestion(n: nat, head: Id, digest: Id, at: int)
    | RestoreChecks(n: nat, head: Id, digest: Id, mint: Id, at: int)
    | CancelRecord(n: nat, at: int)
    | CancelClosed(n: nat, status: Status, x: Identity, at: int)
    | Record(p: Place, id: Id, answer: Id, provenance: Id, at: int)
    | Prepare(p: Place, id: Id, mint: Id, at: int)
    | Ask(n: nat, id: Id, question: Id, at: int)
    | Open(id: Id, r: Request)
    | Withdraw(n: nat)
    | Effect(n: nat, runId: Id, kind: Option<EffectKind>, mint: Id, at: int)
    | Clear(n: nat, effectId: Id)
    | Edit(n: nat, issue: Issue)
    | Route(id: Id, request: Request)

  /** Fields that only the other steps may change. */
  predicate EditAllowed(i: Issue, j: Issue) {
    && j.status == i.status && j.runId == i.runId && j.generation == i.generation && j.answers == i.answers
    && (j.suspension == i.suspension || j.suspension.None? || !j.suspension.value.status.Resolved?)
    && (j.continuation.Some? ==>
          && i.continuation.Some?
          && j.continuation.value.id == i.continuation.value.id
             && j.continuation.value.runId == i.continuation.value.runId
          && j.continuation.value.generation == i.continuation.value.generation
          && j.continuation.value.baseSha == i.continuation.value.baseSha)
  }

  predicate RouteAllowed(r: Request, q: Request) {
    q.id == r.id && q.issue == r.issue && q.status == r.status && q.question == r.question
    && q.answer == r.answer && q.answeredAt == r.answeredAt && q.provenance == r.provenance
  }

  ghost function Do(s: Aggregate, p: Step): Option<Aggregate> {
    match p
    case Start(n, runId, base, at, order) => ExecutionSlot.Start(s, n, runId, base, at, order)
    case Release(n, x) => ExecutionSlot.Release(s, n, x)
    case Capture(n, x, c, at) => ExecutionSlot.Capture(s, n, x, c, at)
    case ResumeRun(n, c, at) => ResumeFrom(s, n, c, at)
    case Transfer(n, x, newRun, at) => ExecutionSlot.Transfer(s, n, x, newRun, at)
    case Apply(n, d, at) => ApplyTo(s, n, d, at)
    case RecoverLaunch(n, expected, at) => RecoverUnstarted(s, n, expected, at)
    case ResolveIssue(n, action, o, mint, at) => ResolveOperator(s, n, action, o, mint, at)
    case RestoreQuestion(n, head, digest, at) => RestoreInput(s, n, head, digest, at)
    case RestoreChecks(n, head, digest, mint, at) => RestoreAnsweredChecks(s, n, head, digest, mint, at)
    case CancelRecord(n, at) => CancelQuarantined(s, n, at)
    case CancelClosed(n, status, x, at) => CancelNotPlanned(s, n, status, x, at)
    case Record(p, id, answer, provenance, at) => RecordAnswer(s, p, id, answer, provenance, at)
    case Prepare(p, id, mint, at) => PrepareAnswered(s, p, id, mint, at)
    case Ask(n, id, question, at) => AskIntake(s, n, id, question, at)
    case Open(id, r) =>
      if r.id != id || !r.status.Pending? || r.answer != 0 || r.answeredAt.Some? || r.provenance != 0 then None
      else Some(s.(requests := s.requests[id := r]))
    case Withdraw(n) => Some(CancelPending(s, n))
    case Effect(n, runId, kind, mint, at) => SetEffect(s, n, runId, kind, mint, at)
    case Clear(n, effectId) => ClearEffect(s, n, effectId)
    case Edit(n, j) => if n in s.issues && EditAllowed(s.issues[n], j) then Some(WithIssue(s, n, j)) else None
    case Route(id, q) => if id in s.requests && RouteAllowed(s.requests[id], q)
        then Some(s.(requests := s.requests[id := q])) else None
  }

  ghost function DoAll(s: Aggregate, steps: seq<Step>): Option<Aggregate>
    decreases |steps|
  {
    if steps == [] then Some(s)
    else match Do(s, steps[0])
      case None => None
      case Some(t) => DoAll(t, steps[1..])
  }

  datatype Update = Update(issue: nat, steps: seq<Step>, now: int, mint: Mint)

  /** The last step of a commit: remember when the slot was given back. */
  function Stamp(was: Aggregate, s: Aggregate, now: int): Aggregate {
    if was.active.Some? && s.active.None? then s.(releasedAt := now) else s
  }

  ghost function LastValid(s: Aggregate, n: nat): Option<Issue> {
    if n in s.issues then Some(s.issues[n]) else None
  }

  /** The committed form is validated once more before it is written. */
  function Checked(rest: Aggregate -> bool, was: Aggregate, s: Aggregate, now: int): Option<Aggregate> {
    if Valid(rest, Stamp(was, s, now)) then Some(Stamp(was, s, now)) else None
  }

  /** What an update commits: the mutated aggregate, or the aggregate without the offending
      Issue, or nothing. */
  ghost function Commit(rest: Aggregate -> bool, s: Aggregate, u: Update): Option<Aggregate> {
    match DoAll(s, u.steps)
    case None => None
    case Some(mutated) => Settle(rest, s, Finalize(mutated, u.mint, u.now), u)
  }

  ghost function Settle(rest: Aggregate -> bool, was: Aggregate, t: Aggregate, u: Update): Option<Aggregate> {
    if Valid(rest, t) then Checked(rest, was, t, u.now)
    else if u.issue < 1 then None
    else
      var isolated := Isolate(t, u.issue, LastValid(was, u.issue), u.now);
      if Valid(rest, isolated) then Checked(rest, was, isolated, u.now) else None
  }
}
