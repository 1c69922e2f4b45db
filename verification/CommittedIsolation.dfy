/**
 Isolation as commits reach it: what a commit isolates can always be returned, and loses
 no request unless the update was aimed at an Issue already in quarantine.
 */
module CommittedIsolation {
  import opened Wrappers
  import opened Lifecycle
  import opened Aggregate
  import opened ExecutionSlot
  import opened Boundary
  import opened Resolution
  import opened Answers
  import opened Isolation
  import opened Authority
  import opened Conversations

  /** Live requests are filed under their own identifiers. */
  predicate Keyed(s: Aggregate) { forall id :: id in s.requests ==> s.requests[id].id == id }

  /** From `s` to `t` requests stay well filed and no Issue is put into quarantine. */
  predicate Filed(s: Aggregate, t: Aggregate) { Keyed(t) && t.quarantined.Keys <= s.quarantined.Keys }

  // ---------------------------------------------------------------- every step files requests well

  lemma SlotFiles(s: Aggregate, p: Step)
    requires Keyed(s) && Do(s, p).Some?
    requires p.Start? || p.Release? || p.Capture? || p.ResumeRun? || p.Transfer? || p.RecoverLaunch? || p.Apply?
             || p.Edit?
             || p.Effect? || p.Clear? || p.CancelClosed? || p.CancelRecord?
    ensures Filed(s, Do(s, p).value)
  {
    hide UnstartedConflictLaunch, Decide, StageForStatus, DropResolved, Deliver, HasPending;
  }

  lemma {:induction false} PutAllKeyed(m: map<Id, Request>, rs: seq<Request>)
    requires forall id :: id in m ==> m[id].id == id
    ensures forall id :: id in PutAll(m, rs) ==> PutAll(m, rs)[id].id == id
    decreases |rs|
  {
    if rs != [] { PutAllKeyed(m[rs[0].id := rs[0]], rs[1..]); }
  }

  lemma RestoreFiles(s: Aggregate, p: Step)
    requires Keyed(s) && Do(s, p).Some? && (p.RestoreQuestion? || p.RestoreChecks?)
    ensures Filed(s, Do(s, p).value)
  {
    hide PutAll, ChecksCandidate, InputCandidate;
    if p.RestoreChecks? { PutAllKeyed(s.requests, s.quarantined[p.n].requests); }
  }

  lemma RelaunchFiles(s: Aggregate, n: nat, action: Action, o: Observation, mint: Id, at: int)
    requires n in s.issues && s.issues[n].suspension.Some? && (action.Resume? || action.RetryStage?)
    requires Keyed(s) && Relaunch(s, n, action, o, mint, at).Some?
    ensures Filed(s, Relaunch(s, n, action, o, mint, at).value)
  {
    hide Offered;
  }

  lemma MergedFiles(s: Aggregate, n: nat, o: Observation, mint: Id, at: int)
    requires n in s.issues && s.issues[n].suspension.Some? && Keyed(s) && AdoptMerged(s, n, o, mint, at).Some?
    ensures Filed(s, AdoptMerged(s, n, o, mint, at).value)
  {
    hide Offered, Resolve;
  }

  lemma CancelFiles(s: Aggregate, n: nat, o: Observation, mint: Id, at: int)
    requires n in s.issues && s.issues[n].suspension.Some? && Keyed(s) && CancelSuspended(s, n, o, mint, at).Some?
    ensures Filed(s, CancelSuspended(s, n, o, mint, at).value)
  {
    hide Offered, Resolve;
  }

  lemma ResolveFiles(s: Aggregate, n: nat, action: Action, o: Observation, mint: Id, at: int)
    requires Keyed(s) && ResolveOperator(s, n, action, o, mint, at).Some?
    ensures Filed(s, ResolveOperator(s, n, action, o, mint, at).value)
  {
    hide Relaunch, AdoptMerged, CancelSuspended, ExtendPaths, CanAdoptHead, CanApprovePaths, CanAdoptWorktree, Offered;
    match action {
      case Resume => RelaunchFiles(s, n, action, o, mint, at);
      case RetryStage => RelaunchFiles(s, n, action, o, mint, at);
      case AdoptPr => MergedFiles(s, n, o, mint, at);
      case Cancel => CancelFiles(s, n, o, mint, at);
      case _ =>
    }
  }

  lemma RequestsFile(s: Aggregate, p: Step)
    requires Keyed(s) && Do(s, p).Some?
    requires p.Record? || p.Prepare? || p.Ask? || p.Open? || p.Withdraw? || p.Route?
    ensures Filed(s, Do(s, p).value)
  {
    hide FirstPending, HasPending, Decide;
  }

  lemma StepFiles(s: Aggregate, p: Step)
    requires Keyed(s) && Do(s, p).Some?
    ensures Filed(s, Do(s, p).value)
  {
    hide Filed, Keyed, Do;
    match p
    case ResolveIssue(n, action, o, mint, at) => DoesResolve(s, n, action, o, mint, at);
        ResolveFiles(s, n, action, o, mint, at);
    case RestoreQuestion(_, _, _, _) => RestoreFiles(s, p);
    case RestoreChecks(_, _, _, _, _) => RestoreFiles(s, p);
    case Record(_, _, _, _, _) => RequestsFile(s, p);
    case Prepare(_, _, _, _) => RequestsFile(s, p);
    case Ask(_, _, _, _) => RequestsFile(s, p);
    case Open(_, _) => RequestsFile(s, p);
    case Withdraw(_) => RequestsFile(s, p);
    case Route(_, _) => RequestsFile(s, p);
    case _ => SlotFiles(s, p);
  }

  lemma DoesResolve(s: Aggregate, n: nat, action: Action, o: Observation, mint: Id, at: int)
    ensures Do(s, ResolveIssue(n, action, o, mint, at)) == ResolveOperator(s, n, action, o, mint, at)
  {
    hide ResolveOperator;
  }

  lemma {:induction false} StepsFile(s: Aggregate, steps: seq<Step>)
    requires Keyed(s) && DoAll(s, steps).Some?
    ensures Filed(s, DoAll(s, steps).value)
    decreases |steps|
  {
    hide Do;
    if steps != [] {
      StepFiles(s, steps[0]);
      StepsFile(Do(s, steps[0]).value, steps[1..]);
    }
  }

  // ---------------------------------------------------------------- what a commit isolates

  /** The aggregate a commit validates, and the one it falls back to. */
  ghost function Mutated(s: Aggregate, u: Update): Aggregate
    requires DoAll(s, u.steps).Some?
  {
    Finalize(DoAll(s, u.steps).value, u.mint, u.now)
  }

  ghost function Isolated(s: Aggregate, u: Update): Aggregate
    requires DoAll(s, u.steps).Some?
  {
    Isolate(Mutated(s, u), u.issue, LastValid(s, u.issue), u.now)
  }

  lemma MutatedFiled(rest: Aggregate -> bool, s: Aggregate, u: Update)
    requires Valid(rest, s) && DoAll(s, u.steps).Some?
    ensures Keyed(Mutated(s, u)) && WellKeyed(Mutated(s, u), u.issue)
    ensures Mutated(s, u).quarantined.Keys <= s.quarantined.Keys
  {
    hide DoAll;
    StepsFile(s, u.steps);
    FinalizeSameRequests(DoAll(s, u.steps).value, u.mint, u.now);
  }

  /** Whatever update made a commit isolate an Issue, restoring its answered checks retry gives back
      exactly the request table from before the isolation. */
  lemma RestoreReturnsRequests(
      rest: Aggregate -> bool, s: Aggregate, u: Update, head: Id, digest: Id, mint: Id, at: int)
    requires Valid(rest, s) && DoAll(s, u.steps).Some?
    ensures var restored := RestoreAnsweredChecks(Isolated(s, u), u.issue, head, digest, mint, at);
            restored.Some? ==> restored.value.requests == Mutated(s, u).requests
  {
    hide DoAll, Finalize, Isolate, RestoreAnsweredChecks;
    MutatedFiled(rest, s, u);
    if RestoreAnsweredChecks(Isolated(s, u), u.issue, head, digest, mint, at).Some? {
      RestoreUndoesIsolation(Mutated(s, u), u.issue, LastValid(s, u.issue), u.now, head, digest, mint, at);
    }
  }

  /** An update aimed at a managed Issue loses no request when that Issue is isolated. */
  lemma ManagedIsolationConserves(rest: Aggregate -> bool, s: Aggregate, u: Update)
    requires Valid(rest, s) && DoAll(s, u.steps).Some? && u.issue in s.issues
    ensures forall p :: At(Mutated(s, u), p) ==>
              exists q :: At(Isolated(s, u), q) && Get(Isolated(s, u), q) == Get(Mutated(s, u), p)
  {
    hide DoAll, Finalize, Isolate, Mutated;
    MutatedFiled(rest, s, u);
    var t := Mutated(s, u);
    assert Isolated(s, u) == Isolate(t, u.issue, LastValid(s, u.issue), u.now);
    forall p | At(t, p) ensures exists q :: At(Isolated(s, u), q) && Get(Isolated(s, u), q) == Get(t, p) {
      RequestSurvives(t, u.issue, LastValid(s, u.issue), u.now, p);
    }
  }

  // ---------------------------------------------------------------- an update aimed at a quarantined Issue

  const QUESTION := Request(3, 1, 1, Unset, 1, 0, None, Pending, 0, None, 1, 0)
  const HELD := Aggregate(map[], map[1 := Record.Record(1, 1, Running, None, [QUESTION], 1)], map[], map[], None, 0)

  /** Setting an effect for an Issue that exists only in quarantine makes the aggregate invalid. */
  function Stray(): Update { Update(1, [Step.Effect(1, 1, Some(MarkDone), 2, 5)], 5, Mint(0, (n: nat) => 0)) }

  /** A commit that isolates a second time replaces the record and loses the request kept in it. */
  lemma SecondIsolationLoses()
    ensures var rest := (s: Aggregate) => true;
            && Valid(rest, HELD) && At(HELD, Held(1, 0)) && Get(HELD, Held(1, 0)) == QUESTION
            && Commit(rest, HELD, Stray()).Some?
            && forall q :: !At(Commit(rest, HELD, Stray()).value, q)
  {
    var rest := (s: Aggregate) => true;
    var step := Stray().steps[0];
    assert DoAll(Do(HELD, step).value, Stray().steps[1..]) == Do(HELD, step);
    var t := Finalize(Do(HELD, step).value, Stray().mint, 5);
    assert t.effects == map[1 := Effect.Effect(2, 1, MarkDone, 5)];
    assert !EffectValid(t, 1);
    var isolated := Isolate(t, 1, None, 5);
    assert RequestsOf(t, 1) == {};
    assert isolated.requests == map[] && isolated.quarantined[1].requests == [];
    assert Valid(rest, Stamp(HELD, isolated, 5));
  }
}
