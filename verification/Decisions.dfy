/**
 What cancelling, restoring, answering and isolating record, and that what one of them
 leaves can be taken up by the next.
 */
module Decisions {
  import opened Wrappers
  import opened Lifecycle
  import opened Aggregate
  import opened ExecutionSlot
  import opened Boundary
  import opened Resolution
  import opened Answers
  import opened Isolation
  import opened Authority
  import Slots
  import Operators

  /** Only the Issue `n` differs among the Issues. */
  predicate OnlyIssue(s: Aggregate, t: Aggregate, n: nat) { n in t.issues && t.issues - {n} == s.issues - {n} }

  // ---------------------------------------------------------------- cancelling

  /** Closing as not planned cancels exactly a blocked or failed Issue, or one already canceled, that is still as it
      was observed and waits for nothing. */
  predicate Closable(s: Aggregate, n: nat, status: Status, x: Identity) {
    && n in s.issues
    && var i := s.issues[n];
    && i.status == status && status in {Blocked, Failed, Canceled} && i.runId == x.runId && i.generation == x.generation
    && (s.active.Some? && s.active.value.issue == n ==>
          s.active.value.runId == x.runId && s.active.value.generation == x.generation)
    && i.worker == 0 && i.notPlanned
    && (forall id :: id in s.requests && s.requests[id].issue == n ==> !s.requests[id].status.Pending?)
    && (n in s.effects ==> s.effects[n].runId == i.runId && s.effects[n].kind in {MarkBlocked, MarkFailed})
  }

  lemma CloseExactly(s: Aggregate, n: nat, status: Status, x: Identity, at: int)
    ensures CancelNotPlanned(s, n, status, x, at).Some? <==> at != 0 && Closable(s, n, status, x)
  {
    hide ClosedForm;
  }

  /** It leaves the Issue canceled, with the evidence of it and any suspension resolved, gives back the authority it
      held, and drops its effect. */
  lemma ClosedIsCanceled(s: Aggregate, n: nat, status: Status, x: Identity, at: int)
    requires CancelNotPlanned(s, n, status, x, at).Some?
    ensures var t, held := CancelNotPlanned(s, n, status, x, at).value, s.active.Some? && s.active.value.issue == n;
            && OnlyIssue(s, t, n) && t.effects == s.effects - {n} && t.requests == s.requests
            && t.quarantined == s.quarantined && t.active == (if held then None else s.active)
            && n in s.issues && s.issues[n].status == status && s.issues[n].notPlanned
            && var j := t.issues[n];
            && j.status.Canceled? && j.updatedAt == at && j.lastError == 0 && j.retryAfter == 0
            && j.cancellation == Some(Cancellation(GitHubNotPlanned, status, held, at))
            && (j.suspension.Some? ==>
                  j.suspension.value.status.Resolved? && j.suspension.value.resolution == Some(Action.Cancel)
                  && j.suspension.value.resolvedAt == at)
            && j.answers == s.issues[n].answers && j.continuation == s.issues[n].continuation
  {
    hide HasPending, Reconcile;
  }

  /** Cancelling a quarantined Issue brings it back canceled, at the rejected run and generation, with what was
      last known of its work, and drops the record with its questions. */
  lemma RecordIsCanceled(s: Aggregate, n: nat, at: int)
    ensures CancelQuarantined(s, n, at).Some? <==>
            n in s.quarantined && n !in s.issues && at != 0 && !(s.active.Some? && s.active.value.issue == n)
    ensures CancelQuarantined(s, n, at).Some? ==>
              var t, q := CancelQuarantined(s, n, at).value, s.quarantined[n];
              && OnlyIssue(s, t, n) && t.quarantined == s.quarantined - {n}
              && t == s.(issues := t.issues, quarantined := t.quarantined)
              && var j := t.issues[n];
              && j.status.Canceled? && j.runId == q.runId && j.generation == q.generation && j.updatedAt == at
              && j.cancellation == Some(Cancellation(OperatorQuarantine, Blocked, false, at))
              && j.worker == 0 && j.suspension.None? && j.continuation.None?
              && (q.lastValid.Some? ==>
                    var v := q.lastValid.value;
                    && j.worktree == v.worktree && j.workspace == v.workspace && j.session == v.session
                    && j.answers == v.answers && j.attempts == v.attempts && j.details == v.details
                    && j.prUrl == v.prUrl && j.prNumber == v.prNumber && j.headSha == v.headSha
                    && j.merged == v.merged)
  {
  }

  /** A resolution is dated and names the action. */
  lemma ResolutionIsDated(p: Suspension, action: Action, at: int)
    ensures var q := Resolution.Resolved(p, action, at);
            q.status.Resolved? && q.resolution == Some(action) && q.resolvedAt == at
            && q == p.(status := q.status, resolution := q.resolution, resolvedAt := at)
  {
  }

  // ---------------------------------------------------------------- returning from quarantine

  /** A run that was rejected for asking a second question while its first suspension was resolved: one question of
      that very run, taken from the same session and workspace, under a checkpoint of its own, and no pull request
      or conflict in the way. */
  predicate AskedAgain(q: Record, n: nat) {
    && q.rejected.NeedsInput? && q.lastValid.Some? && |q.requests| == 1
    && var i, r := q.lastValid.value, q.requests[0];
    && i.status.Running? && i.runId == q.runId == r.runId && i.generation == q.generation
    && i.continuation.Some? && i.suspension.Some?
    && var c, p := i.continuation.value, i.suspension.value;
    && p.status.Resolved? && p.checkpointId == c.id && c.baseSha != 0
    && r.issue == n && r.id != 0 && r.createdAt != 0 && r.status in {Pending, Answered}
    && r.checkpointId != 0 && r.checkpointId != c.id && r.released == Some(Identity(i.runId, i.generation))
    && i.session.Some? && i.session == c.session && i.workspace.Some? && i.workspace == c.workspace
    && i.conflict.None? && i.prUrl == 0 && i.prNumber == 0
  }

  lemma QuestionReturns(s: Aggregate, n: nat, head: Id, digest: Id, at: int)
    ensures RestoreInput(s, n, head, digest, at).Some? <==>
            && n in s.quarantined && AskedAgain(s.quarantined[n], n) && n !in s.issues && s.active.None?
            && head != 0 && digest != 0 && at != 0 && s.quarantined[n].requests[0].id !in s.requests
  {
  }

  /** A launch that was rejected when it retried the checks of a pull request after an answer: the answer was
      delivered once, and the checkpoint it resumed from is the run's own. */
  predicate RetriedChecks(q: Record, n: nat) {
    && q.rejected.Launching? && q.lastValid.Some?
    && var i := q.lastValid.value;
    && i.status.RetryWait? && i.runId == q.runId && 0 < i.generation == q.generation - 1
    && i.worker == 0 && i.suspension.None? && i.conflict.None? && !i.merged
    && i.prUrl != 0 && i.prNumber > 0 && i.headSha != 0 && i.session.Some? && i.workspace.Some? && i.continuation.Some?
    && var c := i.continuation.value;
    && c.needsInput && c.requestId != 0 && c.stage.ResumeStage? && c.baseSha != 0
    && c.runId == i.runId && c.generation == i.generation && c.prUrl == i.prUrl && c.prNumber == i.prNumber
    && c.session == i.session && c.workspace == i.workspace
    && (exists k :: 0 <= k < |q.requests| && q.requests[k].id == c.requestId)
    && (forall j, k :: 0 <= j < k < |q.requests| ==>
          q.requests[j].id != c.requestId || q.requests[k].id != c.requestId)
    && (forall k :: 0 <= k < |q.requests| ==>
          var r := q.requests[k];
          && r.issue == n && r.runId == i.runId && r.status.Answered? && r.answer != 0
          && r.answeredAt.Some? && r.answeredAt.value != 0 && Receipts(i.answers, r) == 1
          && (r.id == c.requestId ==>
                r.checkpointId == c.id && r.released == Some(Identity(i.runId, i.generation - 1))))
  }

  /** The delivered answer repeats the one in the request. */
  predicate SameAnswer(a: Answer, r: Request) {
    a.requestId == r.id && a.question == r.question && a.answer == r.answer && r.answeredAt == Some(a.answeredAt)
  }

  lemma {:induction false} NoReceipt(answers: seq<Answer>, r: Request)
    requires r.answeredAt.Some?
    ensures Receipts(answers, r) == 0 <==> forall k :: 0 <= k < |answers| ==> !SameAnswer(answers[k], r)
    decreases |answers|
  {
    if answers != [] {
      NoReceipt(answers[1..], r);
      assert forall k :: 1 <= k < |answers| ==> answers[k] == answers[1..][k - 1];
      assert forall k :: 0 <= k < |answers[1..]| ==> answers[1..][k] == answers[k + 1];
    }
  }

  /** The delivered answer at `k` is the only one that repeats the request. */
  predicate OnlyReceipt(answers: seq<Answer>, r: Request, k: int) {
    && 0 <= k < |answers| && SameAnswer(answers[k], r)
    && forall j :: 0 <= j < |answers| && SameAnswer(answers[j], r) ==> j == k
  }

  /** One receipt means that exactly one delivered answer repeats the request. */
  lemma {:induction false} OneReceipt(answers: seq<Answer>, r: Request)
    requires r.answeredAt.Some?
    ensures Receipts(answers, r) == 1 <==> exists k :: OnlyReceipt(answers, r, k)
    decreases |answers|
  {
    if answers != [] {
      var rest := answers[1..];
      NoReceipt(rest, r);
      OneReceipt(rest, r);
      assert forall k :: 1 <= k < |answers| ==> answers[k] == rest[k - 1];
      assert forall k :: 0 <= k < |rest| ==> rest[k] == answers[k + 1];
      if SameAnswer(answers[0], r) {
        if Receipts(rest, r) == 0 { assert OnlyReceipt(answers, r, 0); }
      } else {
        if k :| OnlyReceipt(rest, r, k) { assert OnlyReceipt(answers, r, k + 1); }
        if k :| OnlyReceipt(answers, r, k) { assert OnlyReceipt(rest, r, k - 1); }
      }
    }
  }

  lemma ChecksReturn(s: Aggregate, n: nat, head: Id, digest: Id, mint: Id, at: int)
    ensures RestoreAnsweredChecks(s, n, head, digest, mint, at).Some? <==>
            && n in s.quarantined && RetriedChecks(s.quarantined[n], n) && n !in s.issues && s.active.None?
            && head != 0 && digest != 0 && at != 0
            && forall k :: 0 <= k < |s.quarantined[n].requests| ==> s.quarantined[n].requests[k].id !in s.requests
  {
    hide Receipts, PutAll;
  }

  /** The question a restored Issue waits for can be answered and the answer handed over: its checkpoint names the
      question, the observed head and the observed worktree. */
  lemma RestoredQuestionCanBeAnswered(s: Aggregate, n: nat, head: Id, digest: Id, at: int)
    requires RestoreInput(s, n, head, digest, at).Some?
    ensures var t := RestoreInput(s, n, head, digest, at).value;
            && n in s.quarantined && |s.quarantined[n].requests| == 1 && OnlyIssue(s, t, n) && n !in s.issues
            && t.quarantined == s.quarantined - {n} && t.active.None? && t.effects == s.effects
            && var j, r := t.issues[n], s.quarantined[n].requests[0];
            && r.id !in s.requests && t.requests == s.requests[r.id := r]
            && j.status.NeedsInput? && j.runId == s.quarantined[n].runId && j.worker == 0 && j.suspension.None?
            && j.lastError == 0 && j.failureKind == 0 && j.retryAfter == 0 && j.updatedAt == at
            && NeedsInputContinuation(j, r, n)
            && var c := j.continuation.value;
            && c.headSha == head && c.worktreeSha == digest && c.stage.ResumeStage?
            && c.workspace == j.workspace && c.session == j.session && c.createdAt == r.createdAt
            && c.generation == j.generation == s.quarantined[n].generation
  {
  }

  /** An Issue whose answered checks retry was rejected comes back awaiting its checks, one generation before the
      rejected one, with a checkpoint of the observed head and worktree and of its own pull request. */
  lemma RestoredChecksGoOn(s: Aggregate, n: nat, head: Id, digest: Id, mint: Id, at: int)
    requires RestoreAnsweredChecks(s, n, head, digest, mint, at).Some?
    ensures var t := RestoreAnsweredChecks(s, n, head, digest, mint, at).value;
            && n in s.quarantined && s.quarantined[n].lastValid.Some? && OnlyIssue(s, t, n) && n !in s.issues
            && t.quarantined == s.quarantined - {n} && t.active.None? && t.effects == s.effects
            && var q, i, j := s.quarantined[n], s.quarantined[n].lastValid.value, t.issues[n];
            && i.status.RetryWait? && j.status.AwaitingChecks? && j.updatedAt == at && j.retryAfter == 0
            && j.generation + 1 == q.generation && j.runId == q.runId && j.answers == i.answers
            && j.prUrl == i.prUrl != 0 && j.prNumber == i.prNumber > 0 && !j.merged && j.worker == 0
            && j.continuation.Some?
            && var c := j.continuation.value;
            && c.id == mint && c.createdAt == at && c.headSha == head != 0 && c.worktreeSha == digest != 0
            && c.stage.ChecksStage? && c.prUrl == j.prUrl && c.prNumber == j.prNumber && !c.needsInput
            && c.runId == j.runId && c.generation == j.generation && c.baseSha == i.continuation.value.baseSha
            && c.workspace == j.workspace && c.session == j.session
            && (forall k :: 0 <= k < |q.requests| ==>
                  q.requests[k].status.Answered? && q.requests[k].id !in s.requests && q.requests[k].issue == n)
  {
    hide PutAll, Receipts;
  }

  // ---------------------------------------------------------------- answers

  /** An answer is recorded exactly for the one pending request of its identifier, with its time and where it came
      from; nothing else changes, and a second answer is refused. */
  lemma AnswerIsRecorded(s: Aggregate, p: Place, id: Id, answer: Id, provenance: Id, at: int)
    ensures RecordAnswer(s, p, id, answer, provenance, at).Some? <==>
            id != 0 && at != 0 && answer != 0 && Finds(s, id, p) && Get(s, p).status.Pending?
    ensures RecordAnswer(s, p, id, answer, provenance, at).Some? ==>
              var t := RecordAnswer(s, p, id, answer, provenance, at).value;
              && At(t, p)
              && var r, q := Get(s, p), Get(t, p);
              && q.status.Answered? && q.answer == answer && q.answeredAt == Some(at) && q.provenance == provenance
              && q == r.(status := q.status, answer := answer, answeredAt := q.answeredAt, provenance := provenance)
              && t == s.(requests := t.requests, quarantined := t.quarantined)
              && (forall other :: other != p ==> (At(t, other) <==> At(s, other)))
              && (forall other :: other != p && At(s, other) ==> Get(t, other) == Get(s, other))
              && RecordAnswer(t, p, id, answer, provenance, at).None?
  {
  }

  /** Whether an answered request can be handed to its Issue. */
  ghost predicate Deliverable(s: Aggregate, r: Request) {
    && r.issue in s.issues && r.status.Answered? && r.answeredAt.Some?
    && var i := s.issues[r.issue];
    && (forall k :: 0 <= k < |i.answers| ==> i.answers[k].requestId != r.id)
    && i.status.NeedsInput? && i.worker == 0 && !(s.active.Some? && s.active.value.issue == r.issue)
    && (forall id :: id in s.requests && s.requests[id].issue == r.issue ==> !s.requests[id].status.Pending?)
    && (r.resumeStatus in {ResumePending, ResolvingConflict}
        || (r.resumeStatus.Unset? && NeedsInputContinuation(i, r, r.issue)))
  }

  lemma DeliverableExactly(s: Aggregate, r: Request)
    ensures AnsweredTransition(s, r) ==
            if Deliverable(s, r) then Some(if r.resumeStatus.ResolvingConflict? then ResolvingConflict
                else ResumePending)
            else None
  {
  }

  /** An answer is handed over exactly when the Issue waits for input, was not given it, and has no other question
      open: it gets the answer once, moves on to where the question came from, and loses the effect that asked for
      input; a conflict gets the effect that retries it. */
  lemma AnswerIsHandedOver(s: Aggregate, p: Place, id: Id, mint: Id, at: int)
    requires Finds(s, id, p) && Deliverable(s, Get(s, p))
    ensures var t, r := PrepareAnswered(s, p, id, mint, at), Get(s, p);
            var n, conflict := r.issue, r.resumeStatus.ResolvingConflict?;
            && (t.None? <==> conflict && (n < 1 || s.issues[n].runId == 0 || at == 0))
            && (t.Some? ==>
                  && OnlyIssue(s, t.value, n) && t.value.requests == s.requests && t.value.active == s.active
                  && t.value.quarantined == s.quarantined && t.value.effects - {n} == s.effects - {n}
                  && var j := t.value.issues[n];
                  && j.status == (if conflict then ResolvingConflict else ResumePending)
                  && j.updatedAt == at && j.retryAfter == 0 && j.continuation == s.issues[n].continuation
                  && |j.answers| == |s.issues[n].answers| + 1
                     && j.answers[..|s.issues[n].answers|] == s.issues[n].answers
                  && var a := j.answers[|s.issues[n].answers|];
                  && a.requestId == r.id && a.question == r.question && a.answer == r.answer
                  && r.answeredAt == Some(a.answeredAt)
                  && (n in t.value.effects && !conflict ==>
                        n in s.effects && t.value.effects[n] == s.effects[n] && !s.effects[n].kind.MarkNeedsInput?)
                  && (conflict ==> n in t.value.effects && t.value.effects[n].kind.RetryConflict?
                                   && t.value.effects[n].runId == s.issues[n].runId))
  {
    hide Deliverable;
    var r := Get(s, p);
    DeliverableExactly(s, r);
    DeliverableWaits(s, r);
  }

  lemma DeliverableWaits(s: Aggregate, r: Request)
    requires Deliverable(s, r)
    ensures r.issue in s.issues && s.issues[r.issue].status.NeedsInput? && r.status.Answered? && r.answeredAt.Some?
  {
  }

  lemma UndeliverableIsRefused(s: Aggregate, p: Place, id: Id, mint: Id, at: int)
    requires !(Finds(s, id, p) && Deliverable(s, Get(s, p)))
    ensures PrepareAnswered(s, p, id, mint, at).None?
  {
    hide Finds;
    if At(s, p) { DeliverableExactly(s, Get(s, p)); }
  }

  /** A question before the run is asked once: of an Issue that has no run and is not in quarantine, unless another
      question of it is open; it becomes the Issue's open question. */
  lemma QuestionIsAsked(s: Aggregate, n: nat, id: Id, question: Id, at: int)
    ensures var open := exists p :: FirstPending(s, n, p);
            var t := AskIntake(s, n, id, question, at);
            && (n in s.quarantined ==> t.None?)
            && (n in s.issues && !(s.issues[n].status.Unset? && s.issues[n].runId == 0) ==> t.None?)
            && (open && n !in s.quarantined ==>
                  (n in s.issues ==> s.issues[n].status.Unset? && s.issues[n].runId == 0) ==>
                    (t.Some? <==> forall p :: FirstPending(s, n, p) ==> Get(s, p).question == question))
            && (open && t.Some? ==> t.value == s)
            && (!open && t.Some? ==>
                  && n in t.value.issues && id in t.value.requests && t.value.quarantined == s.quarantined
                  && t.value.requests - {id} == s.requests - {id}
                  && var r := t.value.requests[id];
                  && r.id == id && r.issue == n && r.question == question && r.createdAt == at
                  && r.status.Pending? && r.runId == 0 && r.answer == 0 && r.answeredAt.None?
                  && (n !in s.issues ==> t.value.issues[n].status.Unset? && t.value.issues[n].updatedAt == at
                                         && t.value.issues[n].runId == 0)
                  && (n in s.issues ==> t.value.issues == s.issues))
            && (!open && n !in s.quarantined ==>
                  (n in s.issues ==> s.issues[n].status.Unset? && s.issues[n].runId == 0) ==> t.Some?)
  {
    hide FirstPending;
  }

  // ---------------------------------------------------------------- isolation

  /** The record of an isolated Issue tells what was rejected and what was last valid. */
  lemma RecordTells(s: Aggregate, n: nat, lastValid: Option<Issue>, at: int)
    ensures n in Isolate(s, n, lastValid, at).quarantined
    ensures var q := Isolate(s, n, lastValid, at).quarantined[n];
            && q.lastValid == lastValid && q.quarantinedAt == at
            && (n in s.issues ==>
                  q.runId == s.issues[n].runId && q.generation == s.issues[n].generation
                  && q.rejected == s.issues[n].status)
            && (n !in s.issues && lastValid.Some? ==>
                  q.runId == lastValid.value.runId && q.generation == lastValid.value.generation
                  && q.rejected == lastValid.value.status)
            && Isolate(s, n, lastValid, at).releasedAt == s.releasedAt
  {
    hide Lookup, RequestsOf;
  }

  /** What the steps of an update and the boundary make of the aggregate. */
  ghost function Bounded(s: Aggregate, u: Update): Option<Aggregate> {
    match DoAll(s, u.steps)
    case None => None
    case Some(t) => Some(Finalize(t, u.mint, u.now))
  }

  /** An update commits what the boundary leaves, if that is valid; otherwise it isolates the Issue it is about,
      unless it is about none or even that is not valid.  A slot given back is dated. */
  lemma CommitDecides(rest: Aggregate -> bool, s: Aggregate, u: Update)
    ensures var t, b := Commit(rest, s, u), Bounded(s, u);
            && (b.None? ==> t.None?)
            && (b.Some? && Valid(rest, b.value) && t.Some? ==> t.value == b.value.(releasedAt := t.value.releasedAt))
            && (b.Some? && !Valid(rest, b.value) && t.Some? ==>
                  && u.issue >= 1 && u.issue in t.value.quarantined && u.issue !in t.value.issues
                  && t.value.issues == b.value.issues - {u.issue}
                  && t.value.quarantined[u.issue].quarantinedAt == u.now
                  && t.value.quarantined[u.issue].lastValid
                     == if u.issue in s.issues then Some(s.issues[u.issue]) else None)
            && (t.Some? && s.active.Some? && t.value.active.None? ==> t.value.releasedAt == u.now)
            && (t.Some? && !(s.active.Some? && t.value.active.None?) ==> t.value.releasedAt == b.value.releasedAt)
            && (t.Some? ==> Valid(rest, t.value))
  {
    hide DoAll, Finalize, Valid, Lookup, RequestsOf;
  }

  /** A refusal has a cause: a step failed, or neither the aggregate nor, for an update about an Issue, the aggregate
      without it is valid. */
  lemma RefusalHasCause(rest: Aggregate -> bool, s: Aggregate, u: Update)
    requires Commit(rest, s, u).None? && Bounded(s, u).Some?
    ensures var b := Bounded(s, u).value;
            || (Valid(rest, b) && !Valid(rest, Stamp(s, b, u.now)))
            || (!Valid(rest, b) && u.issue < 1)
            || (!Valid(rest, b) && !Valid(rest, Isolate(b, u.issue, LastValid(s, u.issue), u.now)))
            || (!Valid(rest, b)
                && !Valid(rest, Stamp(s, Isolate(b, u.issue, LastValid(s, u.issue), u.now), u.now)))
  {
    hide DoAll, Finalize, Valid, Isolate, Stamp;
  }

  // ---------------------------------------------------------------- the steps of an update

  /** The slot is held for this Issue and run. */
  predicate Holds(s: Aggregate, n: nat, runId: Id) {
    s.active.Some? && s.active.value.issue == n && s.active.value.runId == runId
  }

  ghost predicate SlotStep(s: Aggregate, p: Step, t: Aggregate) {
    match p
    case Start(n, runId, _, _, _) => Holds(t, n, runId) && (s.active.Some? ==> t == s)
    case Release(n, x) => Holds(s, n, x.runId) && t.active.None? && n in s.issues && n in t.issues
                          && t.issues[n].worker == 0 && t.issues[n].continuation == s.issues[n].continuation
    case Capture(n, x, id, _) =>
      Holds(s, n, x.runId) && t.active.None? && n in t.issues
      && t.issues[n].continuation.Some? && t.issues[n].continuation.value.id == id
    case ResumeRun(n, id, _) =>
      s.active.None? && n in s.issues && s.issues[n].continuation.Some? && s.issues[n].continuation.value.id == id
      && Holds(t, n, s.issues[n].runId) && t.active.value.generation == s.issues[n].generation + 1
    case Transfer(n, x, newRun, _) => Holds(s, n, x.runId) && Holds(t, n, newRun)
    case Apply(n, d, _) => n in s.issues && n in t.issues && Some(t.issues[n].status) == Decide(d, s.issues[n].status)
                           && t.active == s.active
    case RecoverLaunch(n, expected, _) =>
      s.active == Some(expected) && t.active.None? && n in t.issues && t.issues[n].status.ResolvingConflict?
    case _ => true
  }

  ghost predicate DecisionStep(s: Aggregate, p: Step, t: Aggregate) {
    match p
    case RestoreQuestion(n, head, digest, _) =>
      n in s.quarantined && n in t.issues && t.issues[n].status.NeedsInput? && t.issues[n].continuation.Some?
      && t.issues[n].continuation.value.headSha == head && t.issues[n].continuation.value.worktreeSha == digest
    case RestoreChecks(n, head, digest, _, _) =>
      n in s.quarantined && n in t.issues && t.issues[n].status.AwaitingChecks? && t.issues[n].continuation.Some?
      && t.issues[n].continuation.value.headSha == head && t.issues[n].continuation.value.worktreeSha == digest
    case CancelRecord(n, _) => n in s.quarantined && n in t.issues && t.issues[n].status.Canceled?
    case CancelClosed(n, status, _, _) =>
      n in s.issues && s.issues[n].status == status && s.issues[n].notPlanned && n in t.issues
      && t.issues[n].status.Canceled?
    case Record(place, id, answer, _, _) =>
      At(s, place) && Get(s, place).id == id && At(t, place) && Get(t, place).answer == answer
      && Get(t, place).status.Answered?
    case Prepare(place, id, _, _) =>
      && At(s, place) && Get(s, place).id == id && Get(s, place).issue in t.issues
      && var answers := t.issues[Get(s, place).issue].answers;
         answers != [] && answers[|answers| - 1].requestId == id
    case Ask(n, _, question, _) =>
      exists q :: At(t, q) && Get(t, q).issue == n && Get(t, q).status.Pending?
                  && Get(t, q).question == question
    case ResolveIssue(n, action, _, _, _) =>
      && n in s.issues && n in t.issues && s.issues[n].status in {Blocked, Failed}
      && if action.Cancel? then t.issues[n].status.Canceled?
         else if action.AdoptPr? then t.issues[n].status.Completed?
         else if action.Resume? || action.RetryStage? then Holds(t, n, s.issues[n].runId)
         else t.issues[n].status == s.issues[n].status && t.active == s.active
    case _ => true
  }

  ghost predicate BookStep(s: Aggregate, p: Step, t: Aggregate) {
    match p
    case Open(id, r) => t == s.(requests := s.requests[id := r]) && r.id == id && r.status.Pending? && r.answer == 0
                        && r.answeredAt.None? && r.provenance == 0
    case Withdraw(n) =>
      !HasPending(t, n) && t == s.(requests := t.requests)
      && forall id :: id in s.requests && !(s.requests[id].issue == n && s.requests[id].status.Pending?) ==>
           id in t.requests && t.requests[id] == s.requests[id]
    case Effect(n, runId, kind, _, _) =>
      t == s.(effects := t.effects)
      && if kind.Some? then n in t.effects && t.effects[n].kind == kind.value && t.effects[n].runId == runId
         else n !in t.effects
    case Clear(n, id) => t == s.(effects := s.effects - {n}) && (n in s.effects ==> s.effects[n].id == id)
    case Edit(n, j) => t == s.(issues := s.issues[n := j]) && n in s.issues && j.status == s.issues[n].status
    case Route(id, q) => t == s.(requests := s.requests[id := q]) && id in s.requests
    case _ => true
  }

  lemma SlotStepsTakeEffect(s: Aggregate, p: Step)
    requires Do(s, p).Some?
    ensures SlotStep(s, p, Do(s, p).value)
  {
    hide Decide, Deliver, StageForStatus, ResolveOperator, RestoreInput, RestoreAnsweredChecks, CancelQuarantined,
         CancelNotPlanned, RecordAnswer, PrepareAnswered, AskIntake, RecoverUnstarted, HasPending, SetEffect;
    if p.RecoverLaunch? { Slots.UnstartedGoesBack(s, p.n, p.expected, p.at, 1); }
  }

  lemma BookStepsTakeEffect(s: Aggregate, p: Step)
    requires Do(s, p).Some?
    ensures BookStep(s, p, Do(s, p).value)
  {
    hide ExecutionSlot.Start, ExecutionSlot.Capture, ResumeFrom, ExecutionSlot.Transfer, ApplyTo, ResolveOperator,
         RestoreInput, RestoreAnsweredChecks, CancelQuarantined, CancelNotPlanned, RecordAnswer, PrepareAnswered,
         AskIntake, RecoverUnstarted;
  }

  lemma ResolutionTakesEffect(s: Aggregate, n: nat, action: Action, o: Observation, mint: Id, at: int)
    requires ResolveOperator(s, n, action, o, mint, at).Some?
    ensures DecisionStep(s, ResolveIssue(n, action, o, mint, at), ResolveOperator(s, n, action, o, mint, at).value)
  {
    hide ResolveOperator;
    Operators.ResolutionOutcome(s, n, action, o, mint, at);
    if action.Resume? || action.RetryStage? {
      Operators.RelaunchTakesSlot(s, n, action, o, mint, at);
    } else {
      Operators.OtherActionsKeepSlot(s, n, action, o, mint, at);
      if action.AdoptInput? { Operators.AdoptionExactly(s, n, action, o, mint, at); }
    }
  }

  lemma AnswerStepsTakeEffect(s: Aggregate, p: Step)
    requires Do(s, p).Some? && (p.Record? || p.Prepare? || p.Ask?)
    ensures DecisionStep(s, p, Do(s, p).value)
  {
    hide RecordAnswer, PrepareAnswered, AskIntake, FirstPending, Deliverable;
    match p
    case Record(place, id, answer, provenance, at) => AnswerIsRecorded(s, place, id, answer, provenance, at);
    case Prepare(place, id, mint, at) =>
      if !(Finds(s, id, place) && Deliverable(s, Get(s, place))) { UndeliverableIsRefused(s, place, id, mint, at); }
      AnswerIsHandedOver(s, place, id, mint, at);
    case Ask(n, id, question, at) => QuestionIsOpen(s, n, id, question, at);
  }

  lemma DecisionStepsTakeEffect(s: Aggregate, p: Step)
    requires Do(s, p).Some?
    ensures DecisionStep(s, p, Do(s, p).value)
  {
    hide ResolveOperator, RestoreInput, RestoreAnsweredChecks, CancelQuarantined, CancelNotPlanned, AskIntake,
         FirstPending;
    match p
    case RestoreQuestion(n, head, digest, at) => RestoredQuestionCanBeAnswered(s, n, head, digest, at);
    case RestoreChecks(n, head, digest, mint, at) => RestoredChecksGoOn(s, n, head, digest, mint, at);
    case CancelRecord(n, at) => RecordIsCanceled(s, n, at);
    case CancelClosed(n, status, x, at) => ClosedIsCanceled(s, n, status, x, at);
    case Record(_, _, _, _, _) => AnswerStepsTakeEffect(s, p);
    case Prepare(_, _, _, _) => AnswerStepsTakeEffect(s, p);
    case Ask(_, _, _, _) => AnswerStepsTakeEffect(s, p);
    case ResolveIssue(n, action, o, mint, at) => ResolutionTakesEffect(s, n, action, o, mint, at);
    case _ =>
  }

  /** Each step of an update that succeeds does what its name says. */
  lemma StepsTakeEffect(s: Aggregate, p: Step)
    requires Do(s, p).Some?
    ensures SlotStep(s, p, Do(s, p).value)
    ensures DecisionStep(s, p, Do(s, p).value)
    ensures BookStep(s, p, Do(s, p).value)
  {
    hide *;
    SlotStepsTakeEffect(s, p);
    DecisionStepsTakeEffect(s, p);
    BookStepsTakeEffect(s, p);
  }

  lemma QuestionIsOpen(s: Aggregate, n: nat, id: Id, question: Id, at: int)
    requires AskIntake(s, n, id, question, at).Some?
    ensures var t := AskIntake(s, n, id, question, at).value;
            exists q :: At(t, q) && Get(t, q).issue == n && Get(t, q).status.Pending? && Get(t, q).question == question
  {
    var t := AskIntake(s, n, id, question, at).value;
    if q :| FirstPending(s, n, q) {
      assert At(t, q);
    } else {
      assert At(t, Live(id));
    }
  }
}
