/**
 Answers over all runs: written once, delivered at most once.
 */
module Conversations {
  import opened Wrappers
  import opened Lifecycle
  import opened Aggregate
  import opened ExecutionSlot
  import opened Boundary
  import opened Resolution
  import opened Answers
  import opened Isolation
  import opened Sorting
  import opened Authority
  import opened Fencing

  // ---------------------------------------------------------------- delivered at most once

  /** No two delivered answers belong to the same request. */
  predicate Once(answers: seq<Answer>) {
    forall j, k :: 0 <= j < k < |answers| ==> answers[j].requestId != answers[k].requestId
  }

  predicate DeliveredOnce(s: Aggregate) {
    && (forall n :: n in s.issues ==> Once(s.issues[n].answers))
    && (forall n :: n in s.quarantined && s.quarantined[n].lastValid.Some?
          ==> Once(s.quarantined[n].lastValid.value.answers))
  }

  lemma {:induction false} DeliverOnce(requests: map<Id, Request>, n: nat, order: seq<Id>, answers: seq<Answer>)
    requires Once(answers)
    ensures Once(Deliver(requests, n, order, answers))
    decreases |order|
  {
    if order != [] {
      var id := order[0];
      if id in requests && IntakeAnswered(requests[id], n) && !Delivered(answers, requests[id].id) {
        DeliverOnce(requests, n, order[1..], answers + [AnswerOf(requests[id])]);
      } else {
        DeliverOnce(requests, n, order[1..], answers);
      }
    }
  }

  /** The answer is the one recorded in the request. */
  predicate Repeats(a: Answer, r: Request) {
    a.requestId == r.id && a.question == r.question && a.answer == r.answer && r.answeredAt == Some(a.answeredAt)
  }

  /** An answered request of the Issue that was asked before it had a run. */
  predicate Undelivered(requests: map<Id, Request>, n: nat, order: seq<Id>, id: Id) {
    && id in order && id in requests
    && requests[id].issue == n && requests[id].runId == 0 && requests[id].status.Answered?
    && requests[id].answeredAt.Some?
  }

  /** The answer of such a request, which had none. */
  ghost predicate New(requests: map<Id, Request>, n: nat, order: seq<Id>, was: seq<Answer>, a: Answer) {
    !Delivered(was, a.requestId) && exists id :: Undelivered(requests, n, order, id) && Repeats(a, requests[id])
  }

  /** Every such request has its answer, the answers there were stay in front, and a new one repeats such a
      request that had none. */
  ghost predicate Delivers(requests: map<Id, Request>, n: nat, order: seq<Id>, was: seq<Answer>, now: seq<Answer>) {
    && |was| <= |now| && now[..|was|] == was
    && (forall id :: Undelivered(requests, n, order, id) ==> Delivered(now, requests[id].id))
    && (forall k :: |was| <= k < |now| ==> New(requests, n, order, was, now[k]))
  }

  lemma DeliveredStays(was: seq<Answer>, now: seq<Answer>, id: Id)
    requires |was| <= |now| && now[..|was|] == was && Delivered(was, id)
    ensures Delivered(now, id)
  {
    var k :| 0 <= k < |was| && was[k].requestId == id;
    assert now[k] == now[..|was|][k] == was[k];
  }

  lemma DeliverNext(
      requests: map<Id, Request>, n: nat, order: seq<Id>, was: seq<Answer>, mid: seq<Answer>, now: seq<Answer>)
    requires order != [] && Delivers(requests, n, order[..1], was, mid) && Delivers(requests, n, order[1..], mid, now)
    ensures Delivers(requests, n, order, was, now)
  {
    hide New, Delivered;
    assert now[..|was|] == now[..|mid|][..|was|] == mid[..|was|];
    forall id | Undelivered(requests, n, order, id) ensures Delivered(now, requests[id].id) {
      if id == order[0] {
        assert id in order[..1];
        assert Undelivered(requests, n, order[..1], id);
        DeliveredStays(mid, now, requests[id].id);
      } else {
        assert Undelivered(requests, n, order[1..], id);
      }
    }
    forall k | |was| <= k < |now| ensures New(requests, n, order, was, now[k]) {
      if k < |mid| {
        assert now[k] == now[..|mid|][k] == mid[k];
        NewInPart(requests, n, order, order[..1], was, was, mid[k]);
      } else {
        NewInPart(requests, n, order, order[1..], was, mid, now[k]);
      }
    }
  }

  lemma NewInPart(
      requests: map<Id, Request>, n: nat, order: seq<Id>, part: seq<Id>, was: seq<Answer>, mid: seq<Answer>, a: Answer)
    requires New(requests, n, part, mid, a) && (forall id :: id in part ==> id in order)
    requires |was| <= |mid| && mid[..|was|] == was
    ensures New(requests, n, order, was, a)
  {
    hide Repeats, Delivered;
    var id :| Undelivered(requests, n, part, id) && Repeats(a, requests[id]);
    assert Undelivered(requests, n, order, id);
    if Delivered(was, a.requestId) { DeliveredStays(was, mid, a.requestId); }
  }

  lemma DeliverOneStep(requests: map<Id, Request>, n: nat, id: Id, was: seq<Answer>)
    ensures var mid := if id in requests && IntakeAnswered(requests[id], n) && !Delivered(was, requests[id].id)
                       then was + [AnswerOf(requests[id])] else was;
            Delivers(requests, n, [id], was, mid)
  {
    if id in requests && IntakeAnswered(requests[id], n) && !Delivered(was, requests[id].id) {
      var mid := was + [AnswerOf(requests[id])];
      assert mid[|was|] == AnswerOf(requests[id]);
      assert Undelivered(requests, n, [id], id) && Repeats(mid[|was|], requests[id]);
    }
  }

  /** Delivery is exact. */
  lemma {:induction false} DeliverExactly(requests: map<Id, Request>, n: nat, order: seq<Id>, was: seq<Answer>)
    ensures Delivers(requests, n, order, was, Deliver(requests, n, order, was))
    decreases |order|
  {
    hide Delivers, Delivered, AnswerOf;
    if order == [] {
      NothingDelivered(requests, n, was);
    } else {
      var id := order[0];
      var mid := if id in requests && IntakeAnswered(requests[id], n) && !Delivered(was, requests[id].id)
                 then was + [AnswerOf(requests[id])] else was;
      DeliverOneStep(requests, n, id, was);
      DeliverExactly(requests, n, order[1..], mid);
      assert order[..1] == [id];
      DeliverNext(requests, n, order, was, mid, Deliver(requests, n, order[1..], mid));
    }
  }

  lemma NothingDelivered(requests: map<Id, Request>, n: nat, was: seq<Answer>)
    ensures Delivers(requests, n, [], was, was)
  {
  }

  /** A start succeeds exactly for the run that already holds the slot, or, with the slot free, for an Issue
      that is new or was being claimed and has no open question. */
  lemma StartExactly(s: Aggregate, n: nat, runId: Id, base: Id, at: int, order: seq<Id>)
    ensures ExecutionSlot.Start(s, n, runId, base, at, order).Some? <==>
            && n >= 1 && runId != 0 && n !in s.quarantined
            && if s.active.Some? then s.active.value.issue == n && s.active.value.runId == runId
               else !HasPending(s, n) && IssueAt(s, n).status in {Unset, Claiming}
  {
    hide Deliver, HasPending;
  }

  /** A start that takes the slot takes it for its own run, one generation up, claims the Issue, delivers
      exactly the answers to the questions asked before, and changes nothing else. */
  lemma StartDelivers(s: Aggregate, n: nat, runId: Id, base: Id, at: int, order: seq<Id>)
    requires s.active.None? && ExecutionSlot.Start(s, n, runId, base, at, order).Some?
    ensures var i, t := IssueAt(s, n), ExecutionSlot.Start(s, n, runId, base, at, order).value;
            && n in t.issues && t == s.(issues := t.issues, active := t.active) && t.issues - {n} == s.issues - {n}
            && t.active == Some(Execution(n, runId, i.generation + 1, base, at))
            && var j := t.issues[n];
            && j.status.Claiming? && j.runId == runId && j.generation == i.generation + 1 && j.updatedAt == at
            && j.attempts > 0 && (i.attempts > 0 ==> j.attempts == i.attempts)
            && j.continuation == i.continuation && j.workspace == i.workspace && j.session == i.session
            && Delivers(s.requests, n, order, i.answers, j.answers) && (Once(i.answers) ==> Once(j.answers))
  {
    hide Deliver, HasPending, Delivers, Once;
    DeliverExactly(s.requests, n, order, IssueAt(s, n).answers);
    if Once(IssueAt(s, n).answers) { DeliverOnce(s.requests, n, order, IssueAt(s, n).answers); }
  }

  /** Every Issue's answers are those it had, or those of a step that delivers. */
  ghost predicate AnswersCarried(s: Aggregate, t: Aggregate) {
    && (forall n :: n in t.issues ==>
          || Once(t.issues[n].answers)
          || (n in s.issues && t.issues[n].answers == s.issues[n].answers)
          || (n in s.quarantined && s.quarantined[n].lastValid.Some?
              && t.issues[n].answers == s.quarantined[n].lastValid.value.answers))
    && (forall n :: n in t.quarantined ==>
          n in s.quarantined && t.quarantined[n].lastValid == s.quarantined[n].lastValid)
  }

  lemma CarriedOnce(s: Aggregate, t: Aggregate)
    requires DeliveredOnce(s) && AnswersCarried(s, t)
    ensures DeliveredOnce(t)
  {
  }

  lemma StartCarries(s: Aggregate, n: nat, runId: Id, base: Id, at: int, order: seq<Id>)
    requires DeliveredOnce(s) && ExecutionSlot.Start(s, n, runId, base, at, order).Some?
    ensures AnswersCarried(s, ExecutionSlot.Start(s, n, runId, base, at, order).value)
  {
    hide Deliver, HasPending;
    DeliverOnce(s.requests, n, order, IssueAt(s, n).answers);
  }

  lemma PrepareCarries(s: Aggregate, p: Place, id: Id, mint: Id, at: int)
    requires DeliveredOnce(s) && PrepareAnswered(s, p, id, mint, at).Some?
    ensures AnswersCarried(s, PrepareAnswered(s, p, id, mint, at).value)
  {
    hide HasPending;
    var r := Get(s, p);
    var answers := s.issues[r.issue].answers + [AnswerOf(r)];
    assert Once(answers);
  }

  /** One managed Issue changes and keeps its answers. */
  lemma OneCarries(s: Aggregate, t: Aggregate, n: nat)
    requires n in s.issues && n in t.issues && t.issues == s.issues[n := t.issues[n]] && t.quarantined == s.quarantined
    requires t.issues[n].answers == s.issues[n].answers
    ensures AnswersCarried(s, t)
  {
  }

  lemma SlotCarries(s: Aggregate, p: Step)
    requires Do(s, p).Some? && (p.Release? || p.Capture? || p.ResumeRun? || p.Transfer? || p.RecoverLaunch?
             || p.Apply? || p.Edit?)
    ensures AnswersCarried(s, Do(s, p).value)
  {
    hide UnstartedConflictLaunch, Decide, AnswersCarried, StageForStatus, DropResolved;
    OneCarries(s, Do(s, p).value, p.n);
  }

  lemma RestoreCarries(s: Aggregate, p: Step)
    requires DeliveredOnce(s) && Do(s, p).Some? && (p.RestoreQuestion? || p.RestoreChecks? || p.CancelRecord?)
    ensures AnswersCarried(s, Do(s, p).value)
  {
    hide PutAll, ChecksRequest, ResumedFrom;
  }

  lemma RelaunchCarries(s: Aggregate, n: nat, action: Action, o: Observation, mint: Id, at: int)
    requires n in s.issues && s.issues[n].suspension.Some? && (action.Resume? || action.RetryStage?)
    requires Relaunch(s, n, action, o, mint, at).Some?
    ensures AnswersCarried(s, Relaunch(s, n, action, o, mint, at).value)
  {
    hide Once, Offered;
  }

  lemma MergedCarries(s: Aggregate, n: nat, o: Observation, mint: Id, at: int)
    requires n in s.issues && s.issues[n].suspension.Some? && AdoptMerged(s, n, o, mint, at).Some?
    ensures AnswersCarried(s, AdoptMerged(s, n, o, mint, at).value)
  {
    hide Once, Offered, Resolve;
  }

  lemma CancelCarries(s: Aggregate, n: nat, o: Observation, mint: Id, at: int)
    requires n in s.issues && s.issues[n].suspension.Some? && CancelSuspended(s, n, o, mint, at).Some?
    ensures AnswersCarried(s, CancelSuspended(s, n, o, mint, at).value)
  {
    hide Once, Offered, Resolve;
  }

  lemma ResolveCarries(s: Aggregate, n: nat, action: Action, o: Observation, mint: Id, at: int)
    requires ResolveOperator(s, n, action, o, mint, at).Some?
    ensures AnswersCarried(s, ResolveOperator(s, n, action, o, mint, at).value)
  {
    hide Relaunch, AdoptMerged, CancelSuspended, ExtendPaths, CanAdoptHead, CanApprovePaths, CanAdoptWorktree, Once,
         Offered;
    match action {
      case Resume => RelaunchCarries(s, n, action, o, mint, at);
      case RetryStage => RelaunchCarries(s, n, action, o, mint, at);
      case AdoptPr => MergedCarries(s, n, o, mint, at);
      case Cancel => CancelCarries(s, n, o, mint, at);
      case _ =>
    }
  }

  lemma ClosedCarries(s: Aggregate, n: nat, status: Status, x: Identity, at: int)
    requires CancelNotPlanned(s, n, status, x, at).Some?
    ensures AnswersCarried(s, CancelNotPlanned(s, n, status, x, at).value)
  {
    hide HasPending, Once;
  }

  lemma AskCarries(s: Aggregate, n: nat, id: Id, question: Id, at: int)
    requires AskIntake(s, n, id, question, at).Some?
    ensures AnswersCarried(s, AskIntake(s, n, id, question, at).value)
  {
    hide FirstPending;
  }

  lemma RecordCarries(s: Aggregate, p: Place, id: Id, answer: Id, provenance: Id, at: int)
    requires RecordAnswer(s, p, id, answer, provenance, at).Some?
    ensures AnswersCarried(s, RecordAnswer(s, p, id, answer, provenance, at).value)
  {
    hide Once;
  }

  lemma BookCarries(s: Aggregate, p: Step)
    requires Do(s, p).Some? && (p.Open? || p.Withdraw? || p.Effect? || p.Clear? || p.Route?)
    ensures AnswersCarried(s, Do(s, p).value)
  {
    hide Once;
  }

  lemma StepDeliversOnce(s: Aggregate, p: Step)
    requires DeliveredOnce(s) && Do(s, p).Some?
    ensures DeliveredOnce(Do(s, p).value)
  {
    hide DeliveredOnce, AnswersCarried, ExecutionSlot.Start, ResolveOperator, PrepareAnswered, CancelNotPlanned,
         AskIntake, RecordAnswer;
    match p {
      case Start(n, runId, base, at, order) => StartCarries(s, n, runId, base, at, order);
      case Prepare(place, id, mint, at) => PrepareCarries(s, place, id, mint, at);
      case ResolveIssue(n, action, o, mint, at) => ResolveCarries(s, n, action, o, mint, at);
      case RestoreQuestion(_, _, _, _) => RestoreCarries(s, p);
      case RestoreChecks(_, _, _, _, _) => RestoreCarries(s, p);
      case CancelRecord(_, _) => RestoreCarries(s, p);
      case Release(_, _) => SlotCarries(s, p);
      case Capture(_, _, _, _) => SlotCarries(s, p);
      case ResumeRun(_, _, _) => SlotCarries(s, p);
      case Transfer(_, _, _, _) => SlotCarries(s, p);
      case RecoverLaunch(_, _, _) => SlotCarries(s, p);
      case Apply(_, _, _) => SlotCarries(s, p);
      case Edit(_, _) => SlotCarries(s, p);
      case CancelClosed(n, status, x, at) => ClosedCarries(s, n, status, x, at);
      case Ask(n, id, question, at) => AskCarries(s, n, id, question, at);
      case Record(place, id, answer, provenance, at) => RecordCarries(s, place, id, answer, provenance, at);
      case _ => BookCarries(s, p);
    }
    CarriedOnce(s, Do(s, p).value);
  }

  lemma {:induction false} StepsDeliverOnce(s: Aggregate, steps: seq<Step>)
    requires DeliveredOnce(s) && DoAll(s, steps).Some?
    ensures DeliveredOnce(DoAll(s, steps).value)
    decreases |steps|
  {
    hide DeliveredOnce, Do;
    if steps != [] {
      StepDeliversOnce(s, steps[0]);
      StepsDeliverOnce(Do(s, steps[0]).value, steps[1..]);
    }
  }

  lemma FinalizeCarries(s: Aggregate, m: Mint, at: int)
    ensures AnswersCarried(s, Finalize(s, m, at))
  {
    hide Finalize, Once;
    FinalizeKeeps(s, m, at);
  }

  lemma IsolateDeliversOnce(was: Aggregate, s: Aggregate, n: nat, at: int)
    requires DeliveredOnce(was) && DeliveredOnce(s)
    ensures DeliveredOnce(Isolate(s, n, LastValid(was, n), at))
  {
    hide Lookup, InOrder, Once;
  }

  lemma CommitDeliversOnce(rest: Aggregate -> bool, s: Aggregate, u: Update)
    requires DeliveredOnce(s) && Commit(rest, s, u).Some?
    ensures DeliveredOnce(Commit(rest, s, u).value)
  {
    hide Finalize, Valid, DoAll, DeliveredOnce, AnswersCarried, Isolate, Stamp;
    var mutated := DoAll(s, u.steps).value;
    StepsDeliverOnce(s, u.steps);
    FinalizeCarries(mutated, u.mint, u.now);
    var t := Finalize(mutated, u.mint, u.now);
    CarriedOnce(mutated, t);
    IsolateDeliversOnce(s, t, u.issue, u.now);
    StampDeliversOnce(s, t, u.now);
    StampDeliversOnce(s, Isolate(t, u.issue, LastValid(s, u.issue), u.now), u.now);
  }

  lemma StampDeliversOnce(was: Aggregate, s: Aggregate, now: int)
    requires DeliveredOnce(s)
    ensures DeliveredOnce(Stamp(was, s, now))
  {
  }

  /** Over every run no Issue, managed or kept in quarantine, receives an answer twice. */
  lemma {:induction false} AnswersDeliveredOnce(rest: Aggregate -> bool, s: Aggregate, us: seq<Update>)
    requires DeliveredOnce(s)
    ensures DeliveredOnce(After(rest, s, us))
    decreases |us|
  {
    hide Commit, DeliveredOnce;
    if us != [] {
      var t := Commit(rest, s, us[0]);
      if t.Some? { CommitDeliversOnce(rest, s, us[0]); }
      AnswersDeliveredOnce(rest, if t.Some? then t.value else s, us[1..]);
    }
  }

  // ---------------------------------------------------------------- written once

  /** No identifier is held at two places, and live requests are filed under their own. */
  ghost predicate Unambiguous(s: Aggregate) {
    && (forall id :: id in s.requests ==> s.requests[id].id == id)
    && (forall p, q :: At(s, p) && At(s, q) && Get(s, p).id == Get(s, q).id ==> p == q)
  }

  /** An answered request keeps its answer and time. */
  predicate KeepsAnswer(r: Request, q: Request) {
    && q.id == r.id && q.question == r.question
    && (r.status.Answered? ==> q.status.Answered? && q.answer == r.answer && q.answeredAt == r.answeredAt)
  }

  /** Every request of `t` comes from one of `s` with its answer kept, or is newly opened. */
  ghost predicate Kept(s: Aggregate, t: Aggregate, added: iset<Id>) {
    forall q :: At(t, q) ==>
      || Get(t, q).id in added
      || exists p :: At(s, p) && KeepsAnswer(Get(s, p), Get(t, q))
  }

  /** The identifiers a step opens a request under. */
  ghost function Opened(p: Step): iset<Id> {
    match p
    case Open(id, _) => iset{id}
    case Ask(_, id, _, _) => iset{id}
    case _ => iset{}
  }

  ghost predicate FreshStep(s: Aggregate, p: Step) {
    forall id :: id in Opened(p) ==> forall q :: At(s, q) ==> Get(s, q).id != id
  }

  lemma KeptTransitive(s: Aggregate, t: Aggregate, u: Aggregate, added: iset<Id>)
    requires Kept(s, t, added) && Kept(t, u, iset{})
    ensures Kept(s, u, added)
  {
    forall q | At(u, q) && Get(u, q).id !in added ensures exists p :: At(s, p) && KeepsAnswer(Get(s, p), Get(u, q)) {
      var m :| At(t, m) && KeepsAnswer(Get(t, m), Get(u, q));
      var p :| At(s, p) && KeepsAnswer(Get(s, p), Get(t, m));
      assert KeepsAnswer(Get(s, p), Get(u, q));
    }
  }

  /** The requests, live and held, are the same. */
  predicate SameRequests(s: Aggregate, t: Aggregate) {
    && t.requests == s.requests && t.quarantined.Keys == s.quarantined.Keys
    && forall n :: n in s.quarantined ==> t.quarantined[n].requests == s.quarantined[n].requests
  }

  lemma SameIsKept(s: Aggregate, t: Aggregate)
    requires Unambiguous(s) && SameRequests(s, t)
    ensures Unambiguous(t) && Kept(s, t, iset{})
  {
    forall q | At(t, q) ensures exists p :: At(s, p) && KeepsAnswer(Get(s, p), Get(t, q)) {
      assert At(s, q) && KeepsAnswer(Get(s, q), Get(t, q));
    }
    forall p, q | At(t, p) && At(t, q) && Get(t, p).id == Get(t, q).id ensures p == q {
      assert At(s, p) && At(s, q);
    }
  }

  lemma PutGet(s: Aggregate, p: Place, r: Request, q: Place)
    requires At(s, p)
    ensures At(Put(s, p, r), q) == At(s, q)
    ensures At(s, q) ==> Get(Put(s, p, r), q) == if q == p then r else Get(s, q)
  {
  }

  /** One request is replaced by one of the same identifier that keeps its answer. */
  lemma PutIsKept(s: Aggregate, p: Place, r: Request)
    requires Unambiguous(s) && At(s, p) && KeepsAnswer(Get(s, p), r)
    ensures Unambiguous(Put(s, p, r)) && Kept(s, Put(s, p, r), iset{})
  {
    var t := Put(s, p, r);
    forall q | At(t, q) ensures At(s, q) && KeepsAnswer(Get(s, q), Get(t, q)) {
      PutGet(s, p, r, q);
    }
    forall a, b | At(t, a) && At(t, b) && Get(t, a).id == Get(t, b).id ensures a == b {
      PutGet(s, p, r, a);
      PutGet(s, p, r, b);
    }
  }

  lemma OpenIsKept(s: Aggregate, id: Id, r: Request)
    requires Unambiguous(s) && r.id == id && forall q :: At(s, q) ==> Get(s, q).id != id
    ensures var t := s.(requests := s.requests[id := r]); Unambiguous(t) && Kept(s, t, iset{id})
  {
    var t := s.(requests := s.requests[id := r]);
    forall q | At(t, q) && q != Live(id) ensures At(s, q) && Get(t, q) == Get(s, q) {
    }
    forall q | At(t, q) && Get(t, q).id !in iset{id} ensures exists m :: At(s, m) && KeepsAnswer(Get(s, m), Get(t, q)) {
      assert KeepsAnswer(Get(s, q), Get(t, q));
    }
  }

  lemma WithdrawIsKept(s: Aggregate, n: nat)
    requires Unambiguous(s)
    ensures Unambiguous(CancelPending(s, n)) && Kept(s, CancelPending(s, n), iset{})
  {
    var t := CancelPending(s, n);
    forall q | At(t, q) ensures At(s, q) && KeepsAnswer(Get(s, q), Get(t, q)) {
    }
  }

  /** A record leaves quarantine and its requests are dropped. */
  lemma DropIsKept(s: Aggregate, t: Aggregate, n: nat)
    requires Unambiguous(s) && t.requests == s.requests && t.quarantined == s.quarantined - {n}
    ensures Unambiguous(t) && Kept(s, t, iset{})
  {
    forall q | At(t, q) ensures At(s, q) && Get(t, q) == Get(s, q) && KeepsAnswer(Get(s, q), Get(t, q)) {
    }
  }

  /** Where a request was before the record of Issue `n` was returned. */
  predicate Source(s: Aggregate, t: Aggregate, n: nat, p: Place, q: Place)
    requires At(t, q)
  {
    At(s, p) && Get(s, p) == Get(t, q) && (q.Live? ==> Get(t, q).id == q.id) && (q.Held? ==> p == q && q.issue != n)
  }

  /** The requests of a record go back to the live table. */
  lemma ReturnIsKept(s: Aggregate, t: Aggregate, n: nat)
    requires Unambiguous(s) && n in s.quarantined && t.quarantined == s.quarantined - {n}
    requires t.requests == PutAll(s.requests, s.quarantined[n].requests)
    ensures Unambiguous(t) && Kept(s, t, iset{})
  {
    var rs := s.quarantined[n].requests;
    forall j, k | 0 <= j < k < |rs| ensures rs[j].id != rs[k].id {
      assert At(s, Held(n, j)) && At(s, Held(n, k));
      assert Get(s, Held(n, j)) == rs[j] && Get(s, Held(n, k)) == rs[k];
    }
    PutAllHolds(s.requests, rs);
    forall q | At(t, q) ensures exists p :: Source(s, t, n, p, q) {
      match q
      case Held(m, k) => assert Source(s, t, n, q, q);
      case Live(id) =>
        if k: nat :| k < |rs| && rs[k].id == id {
          assert Source(s, t, n, Held(n, k), q);
        } else {
          assert Source(s, t, n, q, q);
        }
    }
    forall p, q | At(t, p) && At(t, q) && Get(t, p).id == Get(t, q).id ensures p == q {
      SameSource(s, t, n, p, q);
    }
    forall q | At(t, q) ensures exists p :: At(s, p) && KeepsAnswer(Get(s, p), Get(t, q)) {
      var p :| Source(s, t, n, p, q);
      assert KeepsAnswer(Get(s, p), Get(t, q));
    }
  }

  lemma SameSource(s: Aggregate, t: Aggregate, n: nat, p: Place, q: Place)
    requires Unambiguous(s) && At(t, p) && At(t, q) && Get(t, p).id == Get(t, q).id
    requires forall q | At(t, q) :: exists p :: Source(s, t, n, p, q)
    requires n in s.quarantined && t.requests == PutAll(s.requests, s.quarantined[n].requests)
    ensures p == q
  {
    var p' :| Source(s, t, n, p', p);
    var q' :| Source(s, t, n, q', q);
    assert p' == q';
    if p.Live? && q.Held? { LiveNotHeld(s, n, p.id, q'); }
    if q.Live? && p.Held? { LiveNotHeld(s, n, q.id, p'); }
  }

  /** A live identifier of the restored table never belongs to a request still held elsewhere. */
  lemma LiveNotHeld(s: Aggregate, n: nat, id: Id, q: Place)
    requires Unambiguous(s) && n in s.quarantined && id in PutAll(s.requests, s.quarantined[n].requests)
    requires q.Held? && q.issue != n && At(s, q)
    ensures Get(s, q).id != id
  {
    PutAllSource(s.requests, s.quarantined[n].requests, id);
    if id in s.requests {
      assert At(s, Live(id)) && Get(s, Live(id)).id == id;
    } else {
      var k: nat :| k < |s.quarantined[n].requests| && s.quarantined[n].requests[k].id == id;
      assert At(s, Held(n, k)) && Get(s, Held(n, k)).id == id;
    }
  }

  lemma {:induction false} PutAllSource(m: map<Id, Request>, rs: seq<Request>, id: Id)
    requires id in PutAll(m, rs)
    ensures id in m || exists k: nat :: k < |rs| && rs[k].id == id
    decreases |rs|
  {
    if rs != [] {
      PutAllSource(m[rs[0].id := rs[0]], rs[1..], id);
      if id !in m && id != rs[0].id {
        var k: nat :| k < |rs[1..]| && rs[1..][k].id == id;
        assert rs[k + 1].id == id;
      }
    }
  }

  // ---------------------------------------------------------------- every step keeps answers

  lemma AskIsKept(s: Aggregate, n: nat, id: Id, question: Id, at: int)
    requires Unambiguous(s) && AskIntake(s, n, id, question, at).Some?
    requires forall q :: At(s, q) ==> Get(s, q).id != id
    ensures var t := AskIntake(s, n, id, question, at).value; Unambiguous(t) && Kept(s, t, iset{id})
  {
    hide FirstPending;
    var t := AskIntake(s, n, id, question, at).value;
    if t == s {
      SameIsKept(s, t);
    } else {
      OpenIsKept(s, id, NewRequest(n, id, question, at));
      var u := s.(requests := s.requests[id := NewRequest(n, id, question, at)]);
      SameIsKept(u, t);
      KeptTransitive(s, u, t, iset{id});
    }
  }

  lemma RestoreIsKept(s: Aggregate, p: Step)
    requires Unambiguous(s) && Do(s, p).Some? && (p.RestoreQuestion? || p.RestoreChecks? || p.CancelRecord?)
    ensures Unambiguous(Do(s, p).value) && Kept(s, Do(s, p).value, iset{})
  {
    hide Unambiguous, Kept, ChecksRequest, ResumedFrom;
    var t := Do(s, p).value;
    if p.RestoreQuestion? {
      var rs := s.quarantined[p.n].requests;
      assert rs[1..] == [];
      assert t.requests == PutAll(s.requests, rs);
      ReturnIsKept(s, t, p.n);
    } else if p.RestoreChecks? {
      ReturnIsKept(s, t, p.n);
    } else {
      DropIsKept(s, t, p.n);
    }
  }

  lemma ResolveIsKept(s: Aggregate, n: nat, action: Action, o: Observation, mint: Id, at: int)
    requires Unambiguous(s) && ResolveOperator(s, n, action, o, mint, at).Some?
    ensures var t := ResolveOperator(s, n, action, o, mint, at).value; Unambiguous(t) && Kept(s, t, iset{})
  {
    hide Unambiguous, Kept, ExtendPaths, CanAdoptHead, CanApprovePaths, CanAdoptWorktree, Offered, CancelPending;
    var t := ResolveOperator(s, n, action, o, mint, at).value;
    if action.Cancel? {
      WithdrawIsKept(s, n);
      WithdrawOnlyRequests(s, n);
      CancelSameRequests(s, n, o, mint, at);
      SameIsKept(CancelPending(s, n), t);
      KeptTransitive(s, CancelPending(s, n), t, iset{});
    } else {
      SameIsKept(s, t);
    }
  }

  lemma WithdrawOnlyRequests(s: Aggregate, n: nat)
    ensures CancelPending(s, n) == s.(requests := CancelPending(s, n).requests)
  {
  }

  lemma CancelSameRequests(s: Aggregate, n: nat, o: Observation, mint: Id, at: int)
    requires n in s.issues && s.issues[n].suspension.Some? && CancelSuspended(s, n, o, mint, at).Some?
    ensures SameRequests(CancelPending(s, n), CancelSuspended(s, n, o, mint, at).value)
  {
  }

  lemma SlotSame(s: Aggregate, p: Step)
    requires Do(s, p).Some?
    requires p.Start? || p.Release? || p.Capture? || p.ResumeRun? || p.Transfer? || p.RecoverLaunch? || p.Apply?
             || p.CancelClosed? || p.Effect? || p.Clear? || p.Edit?
    ensures SameRequests(s, Do(s, p).value)
  {
    hide UnstartedConflictLaunch, Transition, Deliver, HasPending, StageForStatus, Move, DropResolved, Reconcile;
  }

  lemma PrepareSame(s: Aggregate, p: Place, id: Id, mint: Id, at: int)
    requires PrepareAnswered(s, p, id, mint, at).Some?
    ensures SameRequests(s, PrepareAnswered(s, p, id, mint, at).value)
  {
    hide HasPending;
  }

  lemma RecordIsKept(s: Aggregate, p: Place, id: Id, answer: Id, provenance: Id, at: int)
    requires Unambiguous(s) && RecordAnswer(s, p, id, answer, provenance, at).Some?
    ensures var t := RecordAnswer(s, p, id, answer, provenance, at).value; Unambiguous(t) && Kept(s, t, iset{})
  {
    hide Unambiguous, Kept, Put;
    PutIsKept(s, p, Get(s, p).(status := Answered, answer := answer, answeredAt := Some(at), provenance := provenance));
  }

  lemma RouteIsKept(s: Aggregate, id: Id, q: Request)
    requires Unambiguous(s) && id in s.requests && RouteAllowed(s.requests[id], q)
    ensures var t := s.(requests := s.requests[id := q]); Unambiguous(t) && Kept(s, t, iset{})
  {
    hide Unambiguous, Kept;
    PutIsKept(s, Live(id), q);
  }

  /** Each step keeps every recorded answer; the only new requests are those it opens. */
  lemma StepKeepsAnswers(s: Aggregate, p: Step)
    requires Unambiguous(s) && Do(s, p).Some? && FreshStep(s, p)
    ensures Unambiguous(Do(s, p).value) && Kept(s, Do(s, p).value, Opened(p))
  {
    hide Unambiguous, Kept, SameRequests, ResolveOperator, RestoreInput, RestoreAnsweredChecks, CancelQuarantined,
         AskIntake, RecordAnswer, PrepareAnswered, CancelPending, CancelNotPlanned, RecoverUnstarted,
         ExecutionSlot.Start, ExecutionSlot.Release, ExecutionSlot.Capture, ExecutionSlot.Transfer, ResumeFrom, ApplyTo,
         SetEffect, ClearEffect;
    match p {
      case Open(id, r) => assert id in Opened(p); OpenIsKept(s, id, r);
      case Ask(n, id, question, at) => assert id in Opened(p); AskIsKept(s, n, id, question, at);
      case RestoreQuestion(_, _, _, _) => RestoreIsKept(s, p);
      case RestoreChecks(_, _, _, _, _) => RestoreIsKept(s, p);
      case CancelRecord(_, _) => RestoreIsKept(s, p);
      case ResolveIssue(n, action, o, mint, at) => ResolveIsKept(s, n, action, o, mint, at);
      case Record(place, id, answer, provenance, at) => RecordIsKept(s, place, id, answer, provenance, at);
      case Route(id, q) => RouteIsKept(s, id, q);
      case Withdraw(n) => WithdrawIsKept(s, n);
      case Prepare(place, id, mint, at) => PrepareSame(s, place, id, mint, at); SameIsKept(s, Do(s, p).value);
      case _ => SlotSame(s, p); SameIsKept(s, Do(s, p).value);
    }
  }

  /** Identifiers of newly opened requests are fresh, in the committed aggregate and when used. */
  ghost predicate FreshIn(base: Aggregate, s: Aggregate, steps: seq<Step>)
    decreases |steps|
  {
    steps == [] ||
    (FreshStep(base, steps[0]) && FreshStep(s, steps[0])
     && (Do(s, steps[0]).Some? ==> FreshIn(base, Do(s, steps[0]).value, steps[1..])))
  }

  /** Relative to the committed aggregate: an identifier it knows keeps its answer. */
  ghost predicate WrittenOnce(base: Aggregate, s: Aggregate) {
    forall p, q :: At(base, p) && At(s, q) && Get(base, p).id == Get(s, q).id ==> KeepsAnswer(Get(base, p), Get(s, q))
  }

  lemma ItselfWrittenOnce(s: Aggregate)
    requires Unambiguous(s)
    ensures WrittenOnce(s, s)
  {
  }

  lemma WrittenOnceStep(base: Aggregate, s: Aggregate, t: Aggregate, added: iset<Id>)
    requires WrittenOnce(base, s) && Kept(s, t, added)
    requires forall id :: id in added ==> forall p :: At(base, p) ==> Get(base, p).id != id
    ensures WrittenOnce(base, t)
  {
    forall p, q | At(base, p) && At(t, q) && Get(base, p).id == Get(t, q).id
        ensures KeepsAnswer(Get(base, p), Get(t, q)) {
      var m :| At(s, m) && KeepsAnswer(Get(s, m), Get(t, q));
      assert KeepsAnswer(Get(base, p), Get(s, m));
    }
  }

  lemma {:induction false} StepsWriteOnce(base: Aggregate, s: Aggregate, steps: seq<Step>)
    requires WrittenOnce(base, s) && Unambiguous(s) && FreshIn(base, s, steps) && DoAll(s, steps).Some?
    ensures WrittenOnce(base, DoAll(s, steps).value) && Unambiguous(DoAll(s, steps).value)
    decreases |steps|
  {
    hide WrittenOnce, Unambiguous, Do;
    if steps != [] {
      var t := Do(s, steps[0]).value;
      StepKeepsAnswers(s, steps[0]);
      WrittenOnceStep(base, s, t, Opened(steps[0]));
      StepsWriteOnce(base, t, steps[1..]);
    }
  }

  // ---------------------------------------------------------------- the boundary, isolation, commit

  lemma FinalizeSameRequests(s: Aggregate, m: Mint, at: int)
    ensures SameRequests(s, Finalize(s, m, at))
  {
    FinalizeKeeps(s, m, at);
  }

  /** Where a request was before the isolation of Issue `n`. */
  ghost function Origin(s: Aggregate, n: nat, q: Place): Place
    requires q.Held? && q.issue == n ==> q.index < |InOrder(RequestsOf(s, n))|
  {
    if q.Held? && q.issue == n then Live(InOrder(RequestsOf(s, n))[q.index]) else q
  }

  lemma OriginHolds(s: Aggregate, n: nat, lastValid: Option<Issue>, at: int, q: Place)
    requires At(Isolate(s, n, lastValid, at), q)
    ensures q.Held? && q.issue == n ==> q.index < |InOrder(RequestsOf(s, n))|
    ensures At(s, Origin(s, n, q)) && Get(s, Origin(s, n, q)) == Get(Isolate(s, n, lastValid, at), q)
    ensures Origin(s, n, q).Held? ==> Origin(s, n, q).issue != n
  {
    if q.Held? && q.issue == n {
      var id := InOrder(RequestsOf(s, n))[q.index];
      assert id in InOrder(RequestsOf(s, n));
    }
  }

  lemma OriginInjective(s: Aggregate, n: nat, lastValid: Option<Issue>, at: int, p: Place, q: Place)
    requires At(Isolate(s, n, lastValid, at), p) && At(Isolate(s, n, lastValid, at), q)
    ensures p.Held? && p.issue == n ==> p.index < |InOrder(RequestsOf(s, n))|
    ensures q.Held? && q.issue == n ==> q.index < |InOrder(RequestsOf(s, n))|
    ensures Origin(s, n, p) == Origin(s, n, q) ==> p == q
  {
    OriginHolds(s, n, lastValid, at, p);
    OriginHolds(s, n, lastValid, at, q);
    var ids := InOrder(RequestsOf(s, n));
    if p.Held? && p.issue == n { assert ids[p.index] in ids; }
    if q.Held? && q.issue == n { assert ids[q.index] in ids; }
  }

  lemma IsolateIsKept(s: Aggregate, n: nat, lastValid: Option<Issue>, at: int)
    requires Unambiguous(s)
    ensures var t := Isolate(s, n, lastValid, at); Unambiguous(t) && Kept(s, t, iset{})
  {
    hide Isolate, RecordFor;
    var t := Isolate(s, n, lastValid, at);
    IsolationIsLocal(s, n, lastValid, at);
    forall q | At(t, q) ensures exists p :: At(s, p) && KeepsAnswer(Get(s, p), Get(t, q)) {
      OriginHolds(s, n, lastValid, at, q);
      assert KeepsAnswer(Get(s, Origin(s, n, q)), Get(t, q));
    }
    forall p, q | At(t, p) && At(t, q) && Get(t, p).id == Get(t, q).id ensures p == q {
      OriginHolds(s, n, lastValid, at, p);
      OriginHolds(s, n, lastValid, at, q);
      OriginInjective(s, n, lastValid, at, p, q);
    }
  }

  /** Isolation loses no request exactly when the Issue had no quarantined requests already: a second
      isolation overwrites the first record. */
  lemma IsolationConserves(s: Aggregate, n: nat, lastValid: Option<Issue>, at: int)
    requires Unambiguous(s)
    ensures var t := Isolate(s, n, lastValid, at);
            (forall p :: At(s, p) ==> exists q :: At(t, q) && Get(t, q) == Get(s, p))
            <==> (n !in s.quarantined || s.quarantined[n].requests == [])
  {
    hide RecordFor, Unambiguous;
    var t := Isolate(s, n, lastValid, at);
    if n !in s.quarantined || s.quarantined[n].requests == [] {
      forall p | At(s, p) ensures exists q :: At(t, q) && Get(t, q) == Get(s, p) {
        RequestSurvives(s, n, lastValid, at, p);
      }
    } else {
      var p := Held(n, 0);
      assert At(s, p);
      if exists q :: At(t, q) && Get(t, q) == Get(s, p) {
        var q :| At(t, q) && Get(t, q) == Get(s, p);
        OriginHolds(s, n, lastValid, at, q);
        SameIdSamePlace(s, p, Origin(s, n, q));
      }
    }
  }

  lemma SameIdSamePlace(s: Aggregate, p: Place, q: Place)
    requires Unambiguous(s) && At(s, p) && At(s, q) && Get(s, p).id == Get(s, q).id
    ensures p == q
  {
  }

  lemma RequestSurvives(s: Aggregate, n: nat, lastValid: Option<Issue>, at: int, p: Place)
    requires At(s, p) && (p.Held? ==> p.issue != n)
    ensures exists q :: At(Isolate(s, n, lastValid, at), q) && Get(Isolate(s, n, lastValid, at), q) == Get(s, p)
  {
    var t := Isolate(s, n, lastValid, at);
    if p.Live? && s.requests[p.id].issue == n {
      var ids := InOrder(RequestsOf(s, n));
      assert p.id in ids;
      var k: nat :| k < |ids| && ids[k] == p.id;
      assert At(t, Held(n, k)) && Get(t, Held(n, k)) == s.requests[p.id];
    } else {
      assert At(t, p) && Get(t, p) == Get(s, p);
    }
  }

  lemma SettleWritesOnce(rest: Aggregate -> bool, s: Aggregate, mutated: Aggregate, u: Update)
    requires WrittenOnce(s, mutated) && Unambiguous(mutated)
    requires Settle(rest, s, Finalize(mutated, u.mint, u.now), u).Some?
    ensures var t := Settle(rest, s, Finalize(mutated, u.mint, u.now), u).value; WrittenOnce(s, t) && Unambiguous(t)
  {
    hide Finalize, Isolate, Valid, WrittenOnce, Unambiguous, Kept, SameRequests;
    var t := Finalize(mutated, u.mint, u.now);
    FinalizeSameRequests(mutated, u.mint, u.now);
    SameIsKept(mutated, t);
    WrittenOnceStep(s, mutated, t, iset{});
    StampKeepsRequests(s, t, u.now);
    if !Valid(rest, t) {
      var isolated := Isolate(t, u.issue, LastValid(s, u.issue), u.now);
      IsolateIsKept(t, u.issue, LastValid(s, u.issue), u.now);
      WrittenOnceStep(s, t, isolated, iset{});
      StampKeepsRequests(s, isolated, u.now);
    }
  }

  lemma StampKeepsRequests(was: Aggregate, s: Aggregate, now: int)
    requires WrittenOnce(was, s) && Unambiguous(s)
    ensures WrittenOnce(was, Stamp(was, s, now)) && Unambiguous(Stamp(was, s, now))
  {
    SameIsKept(s, Stamp(was, s, now));
    WrittenOnceStep(was, s, Stamp(was, s, now), iset{});
  }

  /** Answers are written once: an identifier known before a commit, live or in quarantine, and
      still known after it, keeps its answer and its time. */
  lemma CommitWritesOnce(rest: Aggregate -> bool, s: Aggregate, u: Update)
    requires Unambiguous(s) && FreshIn(s, s, u.steps) && Commit(rest, s, u).Some?
    ensures WrittenOnce(s, Commit(rest, s, u).value) && Unambiguous(Commit(rest, s, u).value)
  {
    hide WrittenOnce, Unambiguous, FreshIn, Settle, Finalize;
    ItselfWrittenOnce(s);
    StepsWriteOnce(s, s, u.steps);
    SettleWritesOnce(rest, s, DoAll(s, u.steps).value, u);
  }

  /** The requests that every aggregate of a run has known from the start. */
  ghost predicate Present(rest: Aggregate -> bool, s: Aggregate, us: seq<Update>, id: Id)
    decreases |us|
  {
    && (exists p :: At(s, p) && Get(s, p).id == id)
    && (us != [] ==> Present(rest, Next(rest, s, us[0]), us[1..], id))
  }

  ghost function Next(rest: Aggregate -> bool, s: Aggregate, u: Update): Aggregate {
    var t := Commit(rest, s, u);
    if t.Some? then t.value else s
  }

  ghost predicate FreshRun(rest: Aggregate -> bool, s: Aggregate, us: seq<Update>)
    decreases |us|
  {
    us != [] ==> FreshIn(s, s, us[0].steps) && FreshRun(rest, Next(rest, s, us[0]), us[1..])
  }

  /** Over every run, a request that stays present keeps the answer it once received. */
  lemma {:induction false} AnswersWrittenOnce(rest: Aggregate -> bool, s: Aggregate, us: seq<Update>, p: Place)
    requires Unambiguous(s) && FreshRun(rest, s, us) && At(s, p) && Present(rest, s, us, Get(s, p).id)
    ensures exists q :: At(After(rest, s, us), q) && KeepsAnswer(Get(s, p), Get(After(rest, s, us), q))
    decreases |us|
  {
    hide Unambiguous, Commit, FreshIn;
    if us == [] {
      assert At(After(rest, s, us), p) && KeepsAnswer(Get(s, p), Get(After(rest, s, us), p));
    } else {
      var t := Next(rest, s, us[0]);
      if t != s {
        CommitWritesOnce(rest, s, us[0]);
      } else {
        ItselfWrittenOnce(s);
      }
      assert Present(rest, t, us[1..], Get(s, p).id);
      var m :| At(t, m) && Get(t, m).id == Get(s, p).id;
      assert KeepsAnswer(Get(s, p), Get(t, m));
      AnswersWrittenOnce(rest, t, us[1..], m);
      var q :| At(After(rest, t, us[1..]), q) && KeepsAnswer(Get(t, m), Get(After(rest, t, us[1..]), q));
      assert After(rest, s, us) == After(rest, t, us[1..]);
      assert At(After(rest, s, us), q) && KeepsAnswer(Get(s, p), Get(After(rest, s, us), q));
    }
  }
}
