/**
 The assignment as a compare-and-swap register: no condition on errors, observations or
 crashes is needed.
 */
module AssignmentCommits {
  import opened Wrappers
  import opened Assignment
  import opened AssignmentSafety

  // ---------------------------------------------------------------- commits compare and swap

  /** The only assignment a list of writes can commit. */
  predicate OnlyCommits(xs: seq<Write>, next: Assigned) {
    forall x :: x in xs && x.PutConfig? ==> x.config == next
  }

  lemma {:induction false} ConfigOf(w: World, xs: seq<Write>, next: Assigned)
    requires OnlyCommits(xs, next)
    ensures ApplyAll(w, xs).config == w.config || ApplyAll(w, xs).config == next
    decreases |xs|
  {
    if xs != [] { ConfigOf(Apply(w, xs[0]), xs[1..], next); }
  }

  lemma RollbackCommitsNothing(c: Assigned, t: Tx, f: RollbackFacts)
    ensures forall x :: x in RollbackPlan(c, t, f).writes ==> !x.PutConfig?
  {
  }

  lemma ValidateCommits(c: Assigned, t: Tx, f: Facts)
    ensures OnlyCommits(ValidatePlan(c, t, f).writes, Committed(c, t))
  {
    hide RollbackPlan;
    RollbackCommitsNothing(c, t.(phase := Validating, deferred := false), f.rollback);
  }

  lemma InstallCommits(c: Assigned, t: Tx, f: Facts)
    ensures OnlyCommits(InstallPlan(c, t, f).writes, Committed(c, t))
  {
    hide RollbackPlan, ValidatePlan;
    RollbackCommitsNothing(c, t.(phase := Applying, deferred := false), f.rollback);
    ValidateCommits(c, t.(phase := Applying, deferred := false), f);
  }

  lemma DrainCommits(c: Assigned, t: Tx, loaded: bool, f: Facts)
    ensures OnlyCommits(DrainPlan(c, t, loaded, f).writes, Committed(c, t))
  {
    hide RollbackPlan, InstallPlan;
    RollbackCommitsNothing(c, t.(phase := Draining, deferred := false), f.rollback);
    InstallCommits(c, t.(phase := Draining, deferred := false), f);
  }

  /** The target a call asks for. */
  function Wanted(w: World, c: Call): Option<Ref> {
    match c
    case ApplyTo(candidate, _, _) => Some(candidate)
    case RollBack(expected, _) =>
      if w.tx.Some? && !w.tx.value.Finished() && w.tx.value.operation.RollbackOp? && w.tx.value.expected == expected
      then Some(w.tx.value.desired) else w.config.previous
    case Retry(_, _) => if w.tx.Some? then Some(w.tx.value.desired) else None
    case RetryRollback(_, _) => None
  }

  function Expected(c: Call): nat { if c.RetryRollback? then 0 else c.expected }

  /** A switch drains only from the expected generation, for its own target; otherwise it commits nothing. */
  lemma SwitchCommits(
      reports: Digest -> (nat, nat), w: World, desired: Ref, expected: nat, rollback: bool, retry: bool, f: Facts)
    requires Orderly(reports, w)
    ensures var e := SwitchEntry(reports, w, desired, expected, rollback, retry, f);
            && (e.Stops? ==> forall x :: x in e.plan.writes ==> !x.PutConfig?)
            && (e.Drains? ==>
                  && w.config.generation == expected && w.config.ref != desired
                  && e.tx.desired == desired && e.tx.target == expected + 1
                  && forall x :: x in e.before ==> !x.PutConfig?)
  {
    hide RollbackPlan, RefsLabelled, ProtocolMatches;
    if w.tx.Some? { RollbackCommitsNothing(w.config, w.tx.value, f.rollback); }
  }

  lemma CallCommits(reports: Digest -> (nat, nat), w: World, c: Call)
    requires Orderly(reports, w)
    ensures var e := CallEntry(reports, w, c);
            && (e.Stops? ==> forall x :: x in e.plan.writes ==> !x.PutConfig?)
            && (e.Drains? ==>
                  && !c.RetryRollback? && w.config.generation == Expected(c) && Wanted(w, c) == Some(e.tx.desired)
                  && w.config.ref != e.tx.desired && e.tx.target == w.config.generation + 1
                  && forall x :: x in e.before ==> !x.PutConfig?)
  {
    hide SwitchEntry, Orderly;
    match c
    case ApplyTo(candidate, expected, f) => SwitchCommits(reports, w, candidate, expected, false, false, f);
    case RollBack(expected, f) =>
      if Wanted(w, c).Some? { SwitchCommits(reports, w, Wanted(w, c).value, expected, true, false, f); }
    case Retry(expected, f) =>
      if w.tx.Some? {
        SwitchCommits(reports, w, w.tx.value.desired, expected, w.tx.value.operation.RollbackOp?, true, f);
      }
    case RetryRollback(_, _) =>
  }

  /** A call changes the assignment at most once, only if the caller's generation is current, and
      then to its own target, one generation up, with the old program as the previous one. */
  lemma CommitIsCompareAndSwap(reports: Digest -> (nat, nat), w: World, c: Call, k: nat)
    requires Orderly(reports, w)
    ensures var a := Crash(w, CallPlan(reports, w, c).writes, k).config;
            a != w.config ==>
              && Expected(c) == w.config.generation && Wanted(w, c).Some?
              && a == Assigned(Wanted(w, c).value, Some(w.config.ref), w.config.generation + 1)
              && Wanted(w, c).value != w.config.ref
  {
    hide CallEntry, Orderly, DrainPlan, Wanted, Expected;
    CallCommits(reports, w, c);
    var xs := CallPlan(reports, w, c).writes;
    var cut := if k <= |xs| then xs[..k] else xs;
    match CallEntry(reports, w, c)
    case Stops(plan) =>
      RetryRollbackStops(reports, w, c);
      ConfigOf(w, cut, w.config);
    case Drains(before, t, loaded) =>
      DrainCommits(w.config, t, loaded, c.facts);
      ConfigOf(w, cut, Committed(w.config, t));
  }

  lemma RetryRollbackStops(reports: Digest -> (nat, nat), w: World, c: Call)
    requires CallEntry(reports, w, c).Stops?
    ensures CallPlan(reports, w, c) == CallEntry(reports, w, c).plan
  {
  }

  lemma {:induction false} GenerationsRise(reports: Digest -> (nat, nat), w: World, run: seq<Interrupted>)
    requires Orderly(reports, w)
    ensures Run(reports, w, run).config.generation >= w.config.generation
    decreases |run|
  {
    hide CallPlan, Orderly;
    if run != [] {
      CommitIsCompareAndSwap(reports, w, run[0].call, run[0].writes);
      StepIsOrderly(reports, w, run[0]);
      GenerationsRise(reports, Step(reports, w, run[0]), run[1..]);
    }
  }

  /** Once a call with some expected generation has committed, no later call with the same expected
      generation commits anything, whatever happens in between. */
  lemma OneCommitPerGeneration(
      reports: Digest -> (nat, nat), w: World, first: Interrupted, between: seq<Interrupted>, second: Interrupted)
    requires Orderly(reports, w)
    requires Step(reports, w, first).config != w.config && Expected(second.call) == Expected(first.call)
    ensures var m := Run(reports, Step(reports, w, first), between);
            Step(reports, m, second).config == m.config
  {
    hide CallPlan, Orderly, Run;
    var w1 := Step(reports, w, first);
    CommitIsCompareAndSwap(reports, w, first.call, first.writes);
    StepIsOrderly(reports, w, first);
    GenerationsRise(reports, w1, between);
    RunsAreOrderly(reports, w1, between);
    CommitIsCompareAndSwap(reports, Run(reports, w1, between), second.call, second.writes);
  }

  /** Re-entering a committed but unfinished switch closes it without committing again. */
  lemma ResumeDoesNotCommit(reports: Digest -> (nat, nat), w: World, c: Call, k: nat)
    requires Orderly(reports, w) && Active(w) && CommittedBy(w, w.tx.value)
    requires !c.RetryRollback? && Wanted(w, c) == Some(w.tx.value.desired)
    ensures Crash(w, CallPlan(reports, w, c).writes, k).config == w.config
  {
    CommitIsCompareAndSwap(reports, w, c, k);
  }

  lemma DoneWrites(c: Assigned, t: Tx, loaded: bool, f: Facts)
    requires DrainPlan(c, t, loaded, f).outcome.Done?
    ensures DrainPlan(c, t, loaded, f).writes ==
            [PutFence(FenceFor(t)), SaveTx(t.(phase := Draining, deferred := false)),
                SaveTx(t.(phase := Applying, deferred := false))]
            + ([PutPlist(t.desired.Place()), SaveTx(t.(phase := Validating, deferred := false)),
                PutConfig(Committed(c, t))]
               + [DropFence, SaveTx(Finish(t))])
  {
    hide RollbackPlan;
    RollbackNeverDone(c, t.(phase := Draining, deferred := false), f.rollback);
    RollbackNeverDone(c, t.(phase := Applying, deferred := false), f.rollback);
    RollbackNeverDone(c, t.(phase := Validating, deferred := false), f.rollback);
  }

  lemma RollbackNeverDone(c: Assigned, t: Tx, f: RollbackFacts)
    ensures !RollbackPlan(c, t, f).outcome.Done?
  {
  }

  /** A switch that runs to the end leaves the new program committed and running, and no fence. */
  lemma DrainDone(w: World, t: Tx, loaded: bool, f: Facts)
    requires DrainPlan(w.config, t, loaded, f).outcome.Done?
    ensures ApplyAll(w, DrainPlan(w.config, t, loaded, f).writes)
            == World(Committed(w.config, t), t.desired.Place(), Some(Finish(t)), None)
  {
    hide DrainPlan;
    var d, a, v := t.(phase := Draining, deferred := false), t.(phase := Applying, deferred := false),
        t.(phase := Validating, deferred := false);
    var one := [PutFence(FenceFor(t)), SaveTx(d), SaveTx(a)];
    var two := [PutPlist(t.desired.Place()), SaveTx(v), PutConfig(Committed(w.config, t))];
    var last := [DropFence, SaveTx(Finish(t))];
    DoneWrites(w.config, t, loaded, f);
    ConcatApply(w, one, two + last);
    ConcatApply(ApplyAll(w, one), two, last);
    ApplyThree(w, one[0], one[1], one[2]);
    ApplyThree(ApplyAll(w, one), two[0], two[1], two[2]);
    ApplyTwo(ApplyAll(ApplyAll(w, one), two), last[0], last[1]);
  }

  lemma FreshSwitchDone(reports: Digest -> (nat, nat), w: World, desired: Ref, expected: nat, rollback: bool, f: Facts)
    requires w.tx.None? || w.tx.value.Finished()
    requires SwitchPlan(reports, w, desired, expected, rollback, false, f).outcome.Done?
    ensures ApplyAll(w, SwitchPlan(reports, w, desired, expected, rollback, false, f).writes)
            == World(Assigned(desired, Some(w.config.ref), w.config.generation + 1), desired.Place(),
                     Some(Finish(NewTx(w, desired, rollback, f.loaded))), None)
  {
    hide DrainPlan;
    var t := NewTx(w, desired, rollback, f.loaded);
    var w1 := Apply(w, SaveTx(t));
    var rest := DrainPlan(w.config, t, f.loaded, f).writes;
    DrainDone(w1, t, f.loaded, f);
    assert ([SaveTx(t)] + rest)[1..] == rest;
  }

  lemma ApplyIsSwitch(reports: Digest -> (nat, nat), w: World, candidate: Ref, expected: nat, f: Facts)
    requires CallPlan(reports, w, ApplyTo(candidate, expected, f)).outcome.Done?
    ensures CallPlan(reports, w, ApplyTo(candidate, expected, f))
            == SwitchPlan(reports, w, candidate, expected, false, false, f)
  {
    hide SwitchEntry, DrainPlan;
  }

  lemma RollBackIsSwitch(reports: Digest -> (nat, nat), w: World, expected: nat, f: Facts)
    requires w.tx.Some? && w.tx.value.Finished() && w.config.previous.Some?
    ensures CallPlan(reports, w, RollBack(expected, f))
            == SwitchPlan(reports, w, w.config.previous.value, expected, true, false, f)
  {
    hide SwitchEntry, DrainPlan;
  }

  /** Apply and then roll back: the original program is committed and running again, two
      generations later. */
  lemma RollbackUndoesApply(reports: Digest -> (nat, nat), w: World, candidate: Ref, f: Facts, g: Facts)
    requires w.tx.None? || w.tx.value.Finished()
    requires var apply := CallPlan(reports, w, ApplyTo(candidate, w.config.generation, f)); apply.outcome.Done?
    requires var w1 := ApplyAll(w, CallPlan(reports, w, ApplyTo(candidate, w.config.generation, f)).writes);
             CallPlan(reports, w1, RollBack(w.config.generation + 1, g)).outcome.Done?
    ensures var w1 := ApplyAll(w, CallPlan(reports, w, ApplyTo(candidate, w.config.generation, f)).writes);
            var w2 := ApplyAll(w1, CallPlan(reports, w1, RollBack(w.config.generation + 1, g)).writes);
            && w2.config == Assigned(w.config.ref, Some(candidate), w.config.generation + 2)
            && w2.plist == w.config.ref.Place() && w2.fence.None?
  {
    hide CallPlan, SwitchPlan;
    ApplyIsSwitch(reports, w, candidate, w.config.generation, f);
    FreshSwitchDone(reports, w, candidate, w.config.generation, false, f);
    var w1 := ApplyAll(w, CallPlan(reports, w, ApplyTo(candidate, w.config.generation, f)).writes);
    RollBackIsSwitch(reports, w1, w.config.generation + 1, g);
    FreshSwitchDone(reports, w1, w.config.ref, w.config.generation + 1, true, g);
  }

  // ---------------------------------------------------------------- what a finished call leaves

  /** Whether the call asks for the way back. */
  predicate GoesBack(w: World, c: Call) {
    c.RollBack? || (c.Retry? && w.tx.Some? && w.tx.value.operation.RollbackOp?)
  }

  /** The program is committed and in the LaunchAgent, nothing is fenced, and the transaction is closed. */
  predicate Installed(w: World, r: Ref, generation: nat, back: bool) {
    && w.config.ref == r && w.config.generation == generation && w.plist == r.Place() && w.fence.None?
    && w.tx.Some? && w.tx.value.desired == r && !w.tx.value.deferred
    && w.tx.value.phase == (if back then RolledBack else Succeeded)
  }

  lemma DrainInstalls(w: World, before: seq<Write>, t: Tx, loaded: bool, f: Facts)
    requires DrainPlan(w.config, t, loaded, f).outcome.Done? && ApplyAll(w, before).config == w.config
    ensures var w' := ApplyAll(w, DrainPlan(w.config, t, loaded, f).After(before).writes);
            Installed(w', t.desired, t.target, t.operation.RollbackOp?)
  {
    hide DrainPlan;
    ConcatApply(w, before, DrainPlan(w.config, t, loaded, f).writes);
    DrainDone(ApplyAll(w, before), t, loaded, f);
  }

  lemma SwitchInstalls(
      reports: Digest -> (nat, nat), w: World, desired: Ref, expected: nat, rollback: bool, retry: bool, f: Facts)
    requires Orderly(reports, w) && SwitchPlan(reports, w, desired, expected, rollback, retry, f).outcome.Done?
    ensures Installed(ApplyAll(w, SwitchPlan(reports, w, desired, expected, rollback, retry, f).writes), desired,
                      expected + 1, rollback)
  {
    hide DrainPlan, RollbackPlan, RefsLabelled, ProtocolMatches, Installed;
    SwitchCommits(reports, w, desired, expected, rollback, retry, f);
    match SwitchEntry(reports, w, desired, expected, rollback, retry, f)
    case Drains(before, t, loaded) =>
      ApplyOne(w, SaveTx(t));
      DrainInstalls(w, before, t, loaded, f);
    case Stops(plan) =>
      if w.tx.Some? { RollbackNeverDone(w.config, w.tx.value, f.rollback); }
      ApplyTwo(w, DropFence, SaveTx(Finish(w.tx.value)));
      ResumedIsInstalled(w, desired, expected, rollback);
  }

  lemma ResumedIsInstalled(w: World, desired: Ref, expected: nat, rollback: bool)
    requires w.tx.Some? && w.tx.value.desired == desired && w.tx.value.target == expected + 1
    requires w.tx.value.operation == OperationOf(rollback)
    requires w.config.generation == w.tx.value.target && w.config.ref == desired && w.plist == desired.Place()
    ensures Installed(Apply(Apply(w, DropFence), SaveTx(Finish(w.tx.value))), desired, expected + 1, rollback)
  {
  }

  /** A call that reports success has installed what it was asked for, one generation up, and closed its own
      transaction; a repeated or resumed one included. */
  lemma DoneIsInstalled(reports: Digest -> (nat, nat), w: World, c: Call)
    requires Orderly(reports, w) && CallPlan(reports, w, c).outcome.Done?
    ensures Wanted(w, c).Some?
    ensures Installed(ApplyAll(w, CallPlan(reports, w, c).writes), Wanted(w, c).value, Expected(c) + 1, GoesBack(w, c))
  {
    hide SwitchEntry, Orderly, DrainPlan, Installed;
    match c
    case ApplyTo(candidate, expected, f) => SwitchInstalls(reports, w, candidate, expected, false, false, f);
    case RollBack(expected, f) =>
      if Wanted(w, c).Some? { SwitchInstalls(reports, w, Wanted(w, c).value, expected, true, false, f); }
    case Retry(expected, f) =>
      if w.tx.Some? {
        SwitchInstalls(reports, w, w.tx.value.desired, expected, w.tx.value.operation.RollbackOp?, true, f);
      }
    case RetryRollback(_, _) =>
  }

  // ---------------------------------------------------------------- what is refused

  /** Reasons to refuse a switch before the first write. */
  predicate Barred(reports: Digest -> (nat, nat), w: World, c: Call) {
    || (!c.RetryRollback? && !c.facts.slotsVerified)
    || (c.ApplyTo? && !Labelled(reports, c.candidate))
    || (c.ApplyTo? && c.candidate.version < w.config.ref.version)
    || (c.RollBack? && Wanted(w, c).None?)
    || (c.Retry? && (w.tx.None? || !w.tx.value.phase.RollbackFailed?))
    || (!c.RetryRollback? && !c.Retry? && w.tx.Some? && w.tx.value.phase.RollbackFailed?
        && Wanted(w, c) != Some(w.config.ref))
    || (!c.RetryRollback? && Expected(c) != w.config.generation
       && !(Active(w) && w.config.generation == w.tx.value.target
        && Expected(c) == w.tx.value.expected))
    || (!c.RetryRollback? && Active(w) && Wanted(w, c) != Some(w.tx.value.desired)
       && Wanted(w, c) != Some(w.config.ref))
    || (!c.RetryRollback? && Active(w) && w.tx.value.operation.RollbackOp? != GoesBack(w, c))
  }

  lemma SwitchBarred(
      reports: Digest -> (nat, nat), w: World, desired: Ref, expected: nat, rollback: bool, retry: bool, f: Facts)
    requires !f.slotsVerified || (!rollback && desired.version < w.config.ref.version)
             || (!retry && w.tx.Some? && w.tx.value.phase.RollbackFailed? && w.config.ref != desired)
             || (expected != w.config.generation && !(Active(w) && w.config.generation == w.tx.value.target
                 && expected == w.tx.value.expected))
             || (Active(w) && w.tx.value.desired != desired && w.config.ref != desired)
             || (Active(w) && w.tx.value.operation != OperationOf(rollback))
    ensures SwitchEntry(reports, w, desired, expected, rollback, retry, f) == REFUSED
  {
    hide ProtocolMatches, RollbackPlan;
  }

  /** An unverified slot, a mislabelled candidate, a downgrade other than by rollback, a stale generation,
      another switch under way or a failed rollback that was not retried: nothing is written. */
  lemma BarredWritesNothing(reports: Digest -> (nat, nat), w: World, c: Call)
    requires Barred(reports, w, c)
    ensures CallPlan(reports, w, c) == Plan([], Refused)
  {
    hide SwitchEntry, ProtocolMatches;
    match c
    case ApplyTo(candidate, expected, f) =>
      if Labelled(reports, candidate) { SwitchBarred(reports, w, candidate, expected, false, false, f); }
    case RollBack(expected, f) =>
      if Wanted(w, c).Some? { SwitchBarred(reports, w, Wanted(w, c).value, expected, true, false, f); }
    case Retry(expected, f) =>
      if w.tx.Some? && w.tx.value.phase.RollbackFailed? && w.tx.value.expected == expected {
        SwitchBarred(reports, w, w.tx.value.desired, expected, w.tx.value.operation.RollbackOp?, true, f);
      }
    case RetryRollback(_, _) =>
  }

  /** Only going back commits an older version. */
  lemma OnlyRollbackDowngrades(reports: Digest -> (nat, nat), w: World, c: Call, k: nat)
    requires Orderly(reports, w) && !GoesBack(w, c)
    ensures Crash(w, CallPlan(reports, w, c).writes, k).config.ref.version >= w.config.ref.version
  {
    hide CallPlan, Orderly;
    CommitIsCompareAndSwap(reports, w, c, k);
    if Wanted(w, c).Some? && Wanted(w, c).value.version < w.config.ref.version { ForwardIsRefused(reports, w, c); }
  }

  lemma ForwardIsRefused(reports: Digest -> (nat, nat), w: World, c: Call)
    requires !GoesBack(w, c) && Wanted(w, c).Some? && Wanted(w, c).value.version < w.config.ref.version
    ensures forall k :: Crash(w, CallPlan(reports, w, c).writes, k).config == w.config
  {
    hide SwitchEntry, ProtocolMatches;
    if c.ApplyTo? {
      BarredWritesNothing(reports, w, c);
    } else if c.Retry? && w.tx.value.phase.RollbackFailed? && w.tx.value.expected == c.expected {
      SwitchBarred(reports, w, w.tx.value.desired, c.expected, false, true, c.facts);
    }
    assert forall k :: CallPlan(reports, w, c).writes == [] ==> Crash(w, CallPlan(reports, w, c).writes, k) == w;
  }

  predicate GoesForward(reports: Digest -> (nat, nat), w: World, run: seq<Interrupted>)
    decreases |run|
  {
    run == [] || (!GoesBack(w, run[0].call) && GoesForward(reports, Step(reports, w, run[0]), run[1..]))
  }

  /** Over every run without a rollback the committed version never falls. */
  lemma {:induction false} VersionsRise(reports: Digest -> (nat, nat), w: World, run: seq<Interrupted>)
    requires Orderly(reports, w) && GoesForward(reports, w, run)
    ensures Run(reports, w, run).config.ref.version >= w.config.ref.version
    decreases |run|
  {
    hide CallPlan, Orderly, GoesBack;
    if run != [] {
      OnlyRollbackDowngrades(reports, w, run[0].call, run[0].writes);
      StepIsOrderly(reports, w, run[0]);
      VersionsRise(reports, Step(reports, w, run[0]), run[1..]);
    }
  }

  /** A deferred switch of another assignment, or one whose fence is back. */
  predicate Outlived(w: World) {
    && w.tx.Some? && w.tx.value.phase.Draining? && w.tx.value.deferred
    && (w.tx.value.expected != w.config.generation || w.tx.value.current != w.config.ref || w.fence.Some?)
  }

  /** The fence that a failed switch left is its own. */
  predicate OwnFence(w: World, t: Tx) {
    w.fence == Some(Fence(t.target, t.desired.version, t.desired.commit))
  }

  /** A switch that could only go wrong is not started: one that was deferred and outlived, one of a running program
      that is not the committed one, a retry that is not allowed or whose transaction or fence is another's, and a
      committed one whose program is not in place or not healthy. */
  lemma UnsafeSwitchIsRefused(
      reports: Digest -> (nat, nat), w: World, desired: Ref, expected: nat, rollback: bool, retry: bool, f: Facts)
    ensures var e, t := SwitchEntry(reports, w, desired, expected, rollback, retry, f), w.tx;
            var retrying, rolling := t.Some? && t.value.phase.RollbackFailed?, t.Some? && t.value.phase.RollingBack?;
            && (Outlived(w) ==> e == REFUSED)
            && (w.config.ref == desired && e != REFUSED && e.plan.writes != [] ==>
                  f.healthy && w.plist == desired.Place())
            && (w.config.ref != desired && retrying && e != REFUSED ==>
                  retry && f.retryAllowed && OwnFence(w, t.value) && t.value.current == w.config.ref
                  && t.value.desired == desired && t.value.expected == expected)
            && (w.config.ref != desired && rolling && !t.value.Finished() && e != REFUSED ==>
                  t.value.expected == w.config.generation && t.value.current == w.config.ref)
            && (w.config.ref != desired && !retrying && !rolling && f.loaded && e != REFUSED ==>
                  w.plist.digest == w.config.ref.digest
                  && reports(w.plist.digest) == (w.config.ref.version, w.config.ref.commit))
  {
    hide RollbackPlan;
  }

  /** What a new switch remembers: where it started, what it wants, and whether the program was loaded. */
  lemma NewSwitchRemembers(
      reports: Digest -> (nat, nat), w: World, desired: Ref, expected: nat, rollback: bool, retry: bool, f: Facts)
    requires SwitchEntry(reports, w, desired, expected, rollback, retry, f).Drains?
    ensures var e := SwitchEntry(reports, w, desired, expected, rollback, retry, f);
            && e.tx.desired == desired
            && (w.tx.None? || w.tx.value.Finished() || w.tx.value.Deferred() ==>
                  && e.before == [SaveTx(e.tx)] && e.tx.phase.Planned? && !e.tx.deferred
                  && e.tx.current == w.config.ref && e.tx.expected == w.config.generation
                  && e.tx.target == w.config.generation + 1
                  && e.tx.wasLoaded == e.loaded == f.loaded && (e.tx.operation.RollbackOp? <==> rollback))
            && (w.tx.Some? && !w.tx.value.Finished() && !w.tx.value.Deferred() ==>
                  e.tx == w.tx.value.(phase := e.tx.phase, deferred := e.tx.deferred))
  {
    hide ProtocolMatches, RollbackPlan;
  }

  /** A rollback that reports success has the committed program back in the LaunchAgent. */
  lemma RollbackRestores(w: World, c: Assigned, t: Tx, f: RollbackFacts)
    ensures var plan := RollbackPlan(c, t, f);
            var w' := ApplyAll(w, plan.writes);
            && w'.config == w.config
            && (plan.outcome.WasRolledBack? ==>
                  && w'.plist == c.ref.Place() && f.stopAllowed && f.healthy && (t.wasLoaded ==> f.starts)
                  && (f.clears ==> w'.fence.None?) && (!f.clears ==> w'.fence == w.fence)
                  && (f.savesDone ==> w'.tx == Some(t.(phase := RolledBack, deferred := false))))
            && (plan.outcome.RollbackStuck? ==>
                  && w'.fence == w.fence
                  && (f.savesFailed ==> w'.tx == Some(t.(phase := RollbackFailed, deferred := false))))
            && plan.outcome in {WasRolledBack, RollbackStuck}
  {
    var first := Optional(f.savesRolling, SaveTx(t.(phase := RollingBack, deferred := false)));
    var put := if f.stopAllowed then Landed(f.plist, PutPlist(c.ref.Place())) else [];
    var ok := f.stopAllowed && f.plist.Written? && (t.wasLoaded ==> f.starts) && f.healthy;
    var last := RollbackEnd(t, ok, f).writes;
    assert RollbackPlan(c, t, f).writes == first + put + last;
    ConcatApply(w, first + put, last);
    ConcatApply(w, first, put);
    var w1 := ApplyAll(ApplyAll(w, first), put);
    ApplyOne(w, SaveTx(t.(phase := RollingBack, deferred := false)));
    ApplyOne(ApplyAll(w, first), PutPlist(c.ref.Place()));
    ApplyOne(w1, SaveTx(t.(phase := RollbackFailed, deferred := false)));
    ApplyOne(w1, DropFence);
    ApplyOne(w1, SaveTx(t.(phase := RolledBack, deferred := false)));
    ApplyTwo(w1, DropFence, SaveTx(t.(phase := RolledBack, deferred := false)));
  }

  /** A rollback that failed and was recorded can be retried as long as its fence and the assignment are its own and
      no worker is in the way, and only then; the retry puts the committed program back. */
  lemma FailedRollbackIsRetried(w: World, allowed: bool, f: RollbackFacts)
    ensures var plan := RetryRollbackPlan(w, allowed, f);
            var w' := ApplyAll(w, plan.writes);
            var mine := w.tx.Some? && w.tx.value.phase.RollbackFailed? && w.tx.value.expected == w.config.generation
                        && w.tx.value.current == w.config.ref && OwnFence(w, w.tx.value) && allowed;
            && (!mine ==> plan == Plan([], Refused))
            && (mine && f.plist.Written? && (w.tx.value.wasLoaded ==> f.starts) ==>
                  && w'.plist == w.config.ref.Place() && w'.config == w.config
                  && (f.healthy ==> plan.outcome.WasRolledBack? && w'.fence.None?
                                    && w'.tx == Some(w.tx.value.(phase := RolledBack)))
                  && (!f.healthy ==> plan.outcome.RollbackStuck? && w'.fence == w.fence && w'.tx == w.tx))
            && (plan.outcome.Refused? ==> w'.fence == w.fence && w'.tx == w.tx)
  {
    if w.tx.Some? {
      var put := PutPlist(w.config.ref.Place());
      var t := w.tx.value;
      ApplyOne(w, put);
      ApplyTwo(w, put, SaveTx(t));
      ApplyThree(w, put, DropFence, SaveTx(t.(phase := RolledBack)));
      assert [put] + [DropFence, SaveTx(t.(phase := RolledBack))] == [put, DropFence, SaveTx(t.(phase := RolledBack))];
      assert [put] + [SaveTx(t)] == [put, SaveTx(t)];
    }
  }
}
