/** Questions to the operator: recording an answer, delivering it, and asking before a run exists. */
module Answers {
  import opened Wrappers
  import opened Lifecycle
  import opened Aggregate
  import opened ExecutionSlot

  /** Where a request is kept: pending with the aggregate, or inside a quarantine record. */
  datatype Place = Live(id: Id) | Held(issue: nat, index: nat)

  predicate At(s: Aggregate, p: Place) {
    match p
    case Live(id) => id in s.requests
    case Held(n, k) => n in s.quarantined && k < |s.quarantined[n].requests|
  }

  function Get(s: Aggregate, p: Place): Request
    requires At(s, p)
  {
    match p
    case Live(id) => s.requests[id]
    case Held(n, k) => s.quarantined[n].requests[k]
  }

  function Put(s: Aggregate, p: Place, r: Request): Aggregate
    requires At(s, p)
  {
    match p
    case Live(id) => s.(requests := s.requests[id := r])
    case Held(n, k) =>
      var q := s.quarantined[n];
      s.(quarantined := s.quarantined[n := q.(requests := q.requests[k := r])])
  }

  /** The lookup by identifier succeeds at the only place that holds it. */
  ghost predicate Finds(s: Aggregate, id: Id, p: Place) {
    && At(s, p) && Get(s, p).id == id
    && forall other :: At(s, other) && Get(s, other).id == id ==> other == p
  }

  /** Records an answer; a different answer to an answered or withdrawn request is refused. */
  ghost function RecordAnswer(s: Aggregate, p: Place, id: Id, answer: Id, provenance: Id, at: int): Option<Aggregate> {
    if id == 0 || at == 0 || answer == 0 || !Finds(s, id, p) || !Get(s, p).status.Pending? then None
    else Some(Put(s, p, Get(s, p).(status := Answered, answer := answer, answeredAt := Some(at),
        provenance := provenance)))
  }

  predicate NeedsInputContinuation(i: Issue, r: Request, n: nat) {
    && i.continuation.Some?
    && var c := i.continuation.value;
    && c.needsInput && c.requestId == r.id && r.checkpointId == c.id && r.issue == n && r.runId == i.runId
    && r.released == Some(Identity(c.runId, c.generation))
  }

  /** Whether an answered request may be handed to its Issue, and the status that leads to. */
  function AnsweredTransition(s: Aggregate, r: Request): Option<Status> {
    if r.issue !in s.issues || !r.status.Answered? || r.answeredAt.None? then None
    else
      var i := s.issues[r.issue];
      if Delivered(i.answers, r.id) then None
      else
        var target := if r.resumeStatus.Unset? then ResumePending else r.resumeStatus;
        var to := Decide(ResumeAfterAnswer(target), i.status);
        if to.None? || i.worker != 0 || (s.active.Some? && s.active.value.issue == r.issue) then None
        else if HasPending(s, r.issue) then None
        else if r.resumeStatus.Unset? && !NeedsInputContinuation(i, r, r.issue) then None
        else to
  }

  ghost function PrepareAnswered(s: Aggregate, p: Place, id: Id, mint: Id, at: int): Option<Aggregate> {
    if !Finds(s, id, p) then None
    else
      var r := Get(s, p);
      match AnsweredTransition(s, r)
      case None => None
      case Some(to) =>
        var n := r.issue;
        var i := Move(s.issues[n], to).(answers := s.issues[n].answers + [AnswerOf(r)], retryAfter := 0,
            updatedAt := at);
        var t := WithIssue(s, n, i);
        var u := if n in t.effects && t.effects[n].kind.MarkNeedsInput? then t.(effects := t.effects - {n}) else t;
        if to.ResolvingConflict? then SetEffect(u, n, i.runId, Some(RetryConflict), mint, at) else Some(u)
  }

  function NewRequest(n: nat, id: Id, question: Id, at: int): Request {
    Request(id, n, question, Unset, 0, 0, None, Pending, 0, None, at, 0)
  }

  /** The first pending request of an Issue, in the order of identifiers. */
  ghost predicate FirstPending(s: Aggregate, n: nat, p: Place) {
    && At(s, p) && Get(s, p).issue == n && Get(s, p).status.Pending?
    && forall q :: At(s, q) && Get(s, q).issue == n && Get(s, q).status.Pending? ==> Get(s, p).id <= Get(s, q).id
  }

  /** Asks a question about an Issue that has no run yet; a repeat of the pending question changes nothing. */
  ghost function AskIntake(s: Aggregate, n: nat, id: Id, question: Id, at: int): Option<Aggregate> {
    if n in s.quarantined || (n in s.issues && (!s.issues[n].status.Unset? || s.issues[n].runId != 0)) then None
    else if exists p :: FirstPending(s, n, p) && Get(s, p).question != question then None
    else if exists p :: FirstPending(s, n, p) then Some(s)
    else
      var t := if n in s.issues then s else WithIssue(s, n, NEW_ISSUE.(updatedAt := at));
      Some(t.(requests := t.requests[id := NewRequest(n, id, question, at)]))
  }
}
