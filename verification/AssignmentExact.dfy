/**
 Exactly when a claim about the running program survives: each claim holds at every crash
 point of a run until the first call that breaks it, and no longer.
 */
module AssignmentExact {
  import opened Wrappers
  import opened Assignment
  import opened AssignmentSafety

  datatype Claim = FenceClaim | BetweenClaim | SettledClaim

  function Only(m: Claim): Claims { Claims(m.FenceClaim?, m.BetweenClaim?, m.SettledClaim?) }

  predicate Holds(m: Claim, w: World) {
    match m
    case FenceClaim => FenceSafe(w)
    case BetweenClaim => BetweenPrograms(w)
    case SettledClaim => Settled(w)
  }

  /** The calls that break a claim, stopped late enough to do it. */
  predicate Breaks(reports: Digest -> (nat, nat), m: Claim, w: World, i: Interrupted) {
    match m
    case FenceClaim => LosesFence(reports, w, i)
    case BetweenClaim => Strays(reports, w, i)
    case SettledClaim => Unsettles(reports, w, i)
  }

  // ---------------------------------------------------------------- where a split call ends

  /** The writes of a split switch after its config was replaced. */
  function RollbackWrites(c: Assigned, t: Tx, f: RollbackFacts): seq<Write> {
    Optional(f.savesRolling, SaveTx(t.(phase := RollingBack, deferred := false))) + [PutPlist(c.ref.Place())]
    + (Optional(f.clears, DropFence) + Optional(f.savesDone, SaveTx(t.(phase := RolledBack, deferred := false))))
  }

  function LastPhase(f: RollbackFacts): Phase {
    if f.savesDone then RolledBack else if f.savesRolling then RollingBack else Validating
  }

  /** The new program is committed, the old one is running. */
  function SplitWorld(c: Assigned, t: Tx, f: RollbackFacts): World {
    World(Committed(c, t), c.ref.Place(), Some(t.(phase := LastPhase(f), deferred := false)),
          if f.clears then None else Some(FenceFor(t)))
  }

  /** The writes of a switch up to the replaced config. */
  function UpToConfig(c: Assigned, t: Tx): seq<Write> {
    [PutFence(FenceFor(t)), SaveTx(t.(phase := Draining, deferred := false)),
        SaveTx(t.(phase := Applying, deferred := false))]
    + [PutPlist(t.desired.Place()), SaveTx(t.(phase := Validating, deferred := false)), PutConfig(Committed(c, t))]
  }

  lemma SplitWrites(c: Assigned, t: Tx, loaded: bool, f: Facts)
    requires Splits(t, loaded, f)
    ensures DrainPlan(c, t, loaded, f).writes == UpToConfig(c, t) + RollbackWrites(c, t, f.rollback)
  {
  }

  lemma RollbackWritesEnd(w: World, c: Assigned, t: Tx, f: RollbackFacts)
    requires w.config == Committed(c, t) && w.tx == Some(t.(phase := Validating, deferred := false))
    requires w.fence == Some(FenceFor(t))
    ensures ApplyAll(w, RollbackWrites(c, t, f)) == SplitWorld(c, t, f)
  {
    var rolling, put := SaveTx(t.(phase := RollingBack, deferred := false)), PutPlist(c.ref.Place());
    var save := SaveTx(t.(phase := RolledBack, deferred := false));
    var first, drops, last := Optional(f.savesRolling, rolling), Optional(f.clears, DropFence),
        Optional(f.savesDone, save);
    ConcatApply(w, first + [put], drops + last);
    ConcatApply(w, first, [put]);
    ApplyOne(w, rolling);
    var w1 := ApplyAll(w, first);
    ApplyOne(w1, put);
    ConcatApply(Apply(w1, put), drops, last);
    ApplyOne(Apply(w1, put), DropFence);
    ApplyOne(ApplyAll(Apply(w1, put), drops), save);
  }

  lemma UpToConfigEnd(w: World, t: Tx)
    ensures ApplyAll(w, UpToConfig(w.config, t))
            == World(Committed(w.config, t), t.desired.Place(), Some(t.(phase := Validating, deferred := false)),
                Some(FenceFor(t)))
  {
    var d, a := t.(phase := Draining, deferred := false), t.(phase := Applying, deferred := false);
    var one := [PutFence(FenceFor(t)), SaveTx(d), SaveTx(a)];
    var two := [PutPlist(t.desired.Place()), SaveTx(t.(phase := Validating, deferred := false)),
        PutConfig(Committed(w.config, t))];
    ConcatApply(w, one, two);
    ApplyThree(w, one[0], one[1], one[2]);
    ApplyThree(ApplyAll(w, one), two[0], two[1], two[2]);
  }

  lemma SplitEnd(w: World, t: Tx, loaded: bool, f: Facts)
    requires Splits(t, loaded, f)
    ensures ApplyAll(w, DrainPlan(w.config, t, loaded, f).writes) == SplitWorld(w.config, t, f.rollback)
  {
    hide DrainPlan, RollbackWrites, SplitWorld, UpToConfig;
    SplitWrites(w.config, t, loaded, f);
    UpToConfigEnd(w, t);
    ConcatApply(w, UpToConfig(w.config, t), RollbackWrites(w.config, t, f.rollback));
    RollbackWritesEnd(ApplyAll(w, UpToConfig(w.config, t)), w.config, t, f.rollback);
  }

  lemma SwitchDrains(
      reports: Digest -> (nat, nat), w: World, desired: Ref, expected: nat, rollback: bool, retry: bool, f: Facts)
    requires Orderly(reports, w) && SwitchEntry(reports, w, desired, expected, rollback, retry, f).Drains?
    ensures var e := SwitchEntry(reports, w, desired, expected, rollback, retry, f);
            && ApplyAll(w, e.before).config == w.config
            && e.tx.current == w.config.ref && e.tx.desired == desired && desired != w.config.ref
  {
    ApplyOne(w, SaveTx(SwitchEntry(reports, w, desired, expected, rollback, retry, f).tx));
  }

  /** A draining call moves away from the committed program, to another slot. */
  lemma CallDrains(reports: Digest -> (nat, nat), w: World, c: Call)
    requires Orderly(reports, w) && CallEntry(reports, w, c).Drains?
    ensures var e := CallEntry(reports, w, c);
            && !c.RetryRollback? && ApplyAll(w, e.before).config == w.config
            && e.tx.current == w.config.ref && e.tx.desired.Place() != w.config.ref.Place()
  {
    hide SwitchEntry;
    match c
    case ApplyTo(candidate, expected, f) => SwitchDrains(reports, w, candidate, expected, false, false, f);
    case RollBack(expected, f) =>
      if w.tx.Some? && !w.tx.value.Finished() && w.tx.value.operation.RollbackOp? && w.tx.value.expected == expected {
        SwitchDrains(reports, w, w.tx.value.desired, expected, true, false, f);
      } else {
        SwitchDrains(reports, w, w.config.previous.value, expected, true, false, f);
      }
    case Retry(expected, f) =>
      SwitchDrains(reports, w, w.tx.value.desired, expected, w.tx.value.operation.RollbackOp?, true, f);
    case RetryRollback(_, _) =>
  }

  /** A split call that is not interrupted commits the new program and runs the old one. */
  lemma SplitCallEnds(reports: Digest -> (nat, nat), w: World, c: Call)
    requires Orderly(reports, w) && CallSplits(reports, w, c)
    ensures var t := CallEntry(reports, w, c).tx;
            && ApplyAll(w, CallPlan(reports, w, c).writes) == SplitWorld(w.config, t, c.facts.rollback)
            && t.desired.Place() != w.config.ref.Place()
  {
    hide CallEntry, DrainPlan, Orderly, Splits, SplitWorld;
    var e := CallEntry(reports, w, c);
    CallDrains(reports, w, c);
    SplitEnd(ApplyAll(w, e.before), e.tx, e.loaded, c.facts);
    ConcatApply(w, e.before, DrainPlan(w.config, e.tx, e.loaded, c.facts).writes);
  }

  // ---------------------------------------------------------------- a split call cut short

  /** The same call, observing other ends of its rollback. */
  function Ending(c: Call, clears: bool, savesDone: bool): Call
    requires !c.RetryRollback?
  {
    c.(facts := c.facts.(rollback := c.facts.rollback.(clears := clears, savesDone := savesDone)))
  }

  lemma SwitchEntrySame(
      reports: Digest -> (nat, nat), w: World, desired: Ref, expected: nat, rollback: bool, retry: bool, f: Facts,
      r: RollbackFacts)
    requires SwitchEntry(reports, w, desired, expected, rollback, retry, f).Drains?
    ensures SwitchEntry(reports, w, desired, expected, rollback, retry, f.(rollback := r))
            == SwitchEntry(reports, w, desired, expected, rollback, retry, f)
  {
  }

  lemma EntrySame(reports: Digest -> (nat, nat), w: World, c: Call, clears: bool, savesDone: bool)
    requires !c.RetryRollback? && CallEntry(reports, w, c).Drains?
    ensures CallEntry(reports, w, Ending(c, clears, savesDone)) == CallEntry(reports, w, c)
  {
    hide SwitchEntry;
    var r := c.facts.rollback.(clears := clears, savesDone := savesDone);
    match c
    case ApplyTo(candidate, expected, f) => SwitchEntrySame(reports, w, candidate, expected, false, false, f, r);
    case RollBack(expected, f) =>
      if w.tx.Some? && !w.tx.value.Finished() && w.tx.value.operation.RollbackOp? && w.tx.value.expected == expected {
        SwitchEntrySame(reports, w, w.tx.value.desired, expected, true, false, f, r);
      } else {
        SwitchEntrySame(reports, w, w.config.previous.value, expected, true, false, f, r);
      }
    case Retry(expected, f) =>
      SwitchEntrySame(reports, w, w.tx.value.desired, expected, w.tx.value.operation.RollbackOp?, true, f, r);
  }

  lemma RollbackCut(c: Assigned, t: Tx, b: RollbackFacts)
    ensures var closed := Optional(b.savesDone, SaveTx(t.(phase := RolledBack, deferred := false)));
            && RollbackWrites(c, t, b) == RollbackWrites(c, t, b.(savesDone := false)) + closed
            && RollbackWrites(c, t, b.(savesDone := false))
               == RollbackWrites(c, t, b.(clears := false, savesDone := false)) + Optional(b.clears, DropFence)
  {
  }

  lemma Regroup(a: seq<Write>, b: seq<Write>, c: seq<Write>)
    ensures a + (b + c) == a + b + c
  {
  }

  lemma SplitsSame(t: Tx, loaded: bool, f: Facts, clears: bool, savesDone: bool)
    requires Splits(t, loaded, f)
    ensures Splits(t, loaded, f.(rollback := f.rollback.(clears := clears, savesDone := savesDone)))
  {
  }

  lemma DrainCut(c: Assigned, t: Tx, loaded: bool, f: Facts)
    requires Splits(t, loaded, f)
    ensures var b := f.rollback;
            var closed := Optional(b.savesDone, SaveTx(t.(phase := RolledBack, deferred := false)));
            var open, kept := f.(rollback := b.(savesDone := false)),
                f.(rollback := b.(clears := false, savesDone := false));
            && Splits(t, loaded, open) && Splits(t, loaded, kept)
            && DrainPlan(c, t, loaded, f).writes == DrainPlan(c, t, loaded, open).writes + closed
            && DrainPlan(c, t, loaded, open).writes == DrainPlan(c, t, loaded, kept).writes
               + Optional(b.clears, DropFence)
  {
    hide *;
    var b := f.rollback;
    SplitsSame(t, loaded, f, b.clears, false);
    SplitsSame(t, loaded, f, false, false);
    var open, kept := b.(savesDone := false), b.(clears := false, savesDone := false);
    RollbackCut(c, t, b);
    SplitWrites(c, t, loaded, f);
    SplitWrites(c, t, loaded, f.(rollback := open));
    SplitWrites(c, t, loaded, f.(rollback := kept));
    Regroup(UpToConfig(c, t), RollbackWrites(c, t, open),
        Optional(b.savesDone, SaveTx(t.(phase := RolledBack, deferred := false))));
    Regroup(UpToConfig(c, t), RollbackWrites(c, t, kept), Optional(b.clears, DropFence));
  }

  /** All but the last writes of a split call are those of the same call with another ending. */
  lemma CutShort(reports: Digest -> (nat, nat), w: World, c: Call)
    requires CallSplits(reports, w, c)
    ensures var t, b := CallEntry(reports, w, c).tx, c.facts.rollback;
            var closed := Optional(b.savesDone, SaveTx(t.(phase := RolledBack, deferred := false)));
            && CallSplits(reports, w, Ending(c, b.clears, false)) && CallSplits(reports, w, Ending(c, false, false))
            && CallPlan(reports, w, c).writes == CallPlan(reports, w, Ending(c, b.clears, false)).writes + closed
            && CallPlan(reports, w, Ending(c, b.clears, false)).writes
               == CallPlan(reports, w, Ending(c, false, false)).writes + Optional(b.clears, DropFence)
  {
    hide CallEntry, DrainPlan, Splits, Optional;
    var e, b := CallEntry(reports, w, c), c.facts.rollback;
    EntrySame(reports, w, c, b.clears, false);
    EntrySame(reports, w, c, false, false);
    DrainCut(w.config, e.tx, e.loaded, c.facts);
  }

  lemma CrashPrefix(w: World, a: seq<Write>, b: seq<Write>, k: nat)
    ensures k <= |a| ==> Crash(w, a + b, k) == Crash(w, a, k)
    ensures k >= |a + b| ==> Crash(w, a + b, k) == ApplyAll(w, a + b)
    ensures Crash(w, a + b, |a|) == ApplyAll(w, a)
  {
    if k <= |a| { assert (a + b)[..k] == a[..k]; }
    assert (a + b)[..|a + b|] == a + b && (a + b)[..|a|] == a;
  }

  // ---------------------------------------------------------------- one call

  /** A claim holds at every point a call passes. */
  ghost predicate HoldsThrough(m: Claim, w: World, xs: seq<Write>, k: nat) {
    forall j: nat :: j <= k ==> Holds(m, Crash(w, xs, j))
  }

  lemma HarmlessHolds(reports: Digest -> (nat, nat), m: Claim, w: World, c: Call)
    requires Inv(reports, Only(m), w) && Harmless(reports, Only(m), w, c)
    ensures forall j: nat :: Inv(reports, Only(m), Crash(w, CallPlan(reports, w, c).writes, j))
  {
    hide CallPlan, Inv, Harmless;
    CallKeeps(reports, Only(m), w, c);
    forall j: nat ensures Inv(reports, Only(m), Crash(w, CallPlan(reports, w, c).writes, j)) {
      KeepsCrash(reports, Only(m), w, CallPlan(reports, w, c).writes, j);
    }
  }

  /** A split call that stops before the last writes of its ending. */
  lemma StoppedHolds(reports: Digest -> (nat, nat), m: Claim, w: World, c: Call, d: Call, rest: seq<Write>, k: nat)
    requires Inv(reports, Only(m), w) && Harmless(reports, Only(m), w, d)
    requires CallPlan(reports, w, c).writes == CallPlan(reports, w, d).writes + rest
    requires k <= |CallPlan(reports, w, d).writes|
    ensures forall j: nat :: j <= k ==> Inv(reports, Only(m), Crash(w, CallPlan(reports, w, c).writes, j))
  {
    hide CallPlan, Inv, Harmless, Crash;
    HarmlessHolds(reports, m, w, d);
    forall j: nat | j <= k ensures Inv(reports, Only(m), Crash(w, CallPlan(reports, w, c).writes, j)) {
      CrashPrefix(w, CallPlan(reports, w, d).writes, rest, j);
    }
  }

  lemma FenceLost(reports: Digest -> (nat, nat), w: World, i: Interrupted)
    requires Orderly(reports, w) && LosesFence(reports, w, i)
    ensures !FenceSafe(Step(reports, w, i))
  {
    hide CallPlan, CallEntry, Orderly, Splits;
    var d := Ending(i.call, i.call.facts.rollback.clears, false);
    var xs := CallPlan(reports, w, d).writes;
    CutShort(reports, w, i.call);
    EntrySame(reports, w, i.call, i.call.facts.rollback.clears, false);
    SplitCallEnds(reports, w, i.call);
    SplitCallEnds(reports, w, d);
    CrashPrefix(w, xs, CallPlan(reports, w, i.call).writes[|xs|..], i.writes);
    assert CallPlan(reports, w, i.call).writes == xs + CallPlan(reports, w, i.call).writes[|xs|..];
  }

  lemma Unsettled(reports: Digest -> (nat, nat), w: World, i: Interrupted)
    requires Orderly(reports, w) && Unsettles(reports, w, i)
    ensures !Settled(Step(reports, w, i))
  {
    hide CallPlan, CallEntry, Orderly, Splits;
    SplitCallEnds(reports, w, i.call);
    CrashPrefix(w, CallPlan(reports, w, i.call).writes, [], i.writes);
    assert CallPlan(reports, w, i.call).writes + [] == CallPlan(reports, w, i.call).writes;
  }

  lemma Strayed(reports: Digest -> (nat, nat), w: World, i: Interrupted)
    requires Orderly(reports, w) && Strays(reports, w, i)
    ensures !BetweenPrograms(Crash(w, CallPlan(reports, w, i.call).writes, 1))
  {
    hide DrainPlan, SwitchEntry;
    StraysFresh(reports, w, i.call);
    var e := CallEntry(reports, w, i.call);
    CallDrains(reports, w, i.call);
    ApplyOne(w, SaveTx(e.tx));
    CrashPrefix(w, [SaveTx(e.tx)], DrainPlan(w.config, e.tx, e.loaded, i.call.facts).writes, 1);
  }

  lemma SwitchFresh(
      reports: Digest -> (nat, nat), w: World, desired: Ref, expected: nat, rollback: bool, retry: bool, f: Facts)
    requires !Active(w) && SwitchEntry(reports, w, desired, expected, rollback, retry, f).Drains?
    ensures var e := SwitchEntry(reports, w, desired, expected, rollback, retry, f);
            e.before == [SaveTx(e.tx)] && e.tx.phase.Planned?
  {
  }

  lemma StraysFresh(reports: Digest -> (nat, nat), w: World, c: Call)
    requires !Active(w) && CallEntry(reports, w, c).Drains?
    ensures var e := CallEntry(reports, w, c); e.before == [SaveTx(e.tx)] && e.tx.phase.Planned?
  {
    hide SwitchEntry;
    match c
    case ApplyTo(candidate, expected, f) => SwitchFresh(reports, w, candidate, expected, false, false, f);
    case RollBack(expected, f) =>
      if w.tx.Some? && !w.tx.value.Finished() && w.tx.value.operation.RollbackOp? && w.tx.value.expected == expected {
        SwitchFresh(reports, w, w.tx.value.desired, expected, true, false, f);
      } else {
        SwitchFresh(reports, w, w.config.previous.value, expected, true, false, f);
      }
    case Retry(expected, f) =>
      SwitchFresh(reports, w, w.tx.value.desired, expected, w.tx.value.operation.RollbackOp?, true, f);
    case RetryRollback(_, _) =>
  }

  /** A claim holds at every point a call passes exactly when the call does not break it, and then
      the claim can be followed further. */
  lemma CallExactly(reports: Digest -> (nat, nat), m: Claim, w: World, i: Interrupted)
    requires Inv(reports, Only(m), w)
    ensures HoldsThrough(m, w, CallPlan(reports, w, i.call).writes, i.writes) <==> !Breaks(reports, m, w, i)
    ensures !Breaks(reports, m, w, i) ==> Inv(reports, Only(m), Step(reports, w, i))
  {
    hide CallPlan, CallSplits, CallStrays, Orderly, Crash;
    if Breaks(reports, m, w, i) {
      BreaksShows(reports, m, w, i);
    } else {
      Unbroken(reports, m, w, i);
    }
  }

  lemma BreaksShows(reports: Digest -> (nat, nat), m: Claim, w: World, i: Interrupted)
    requires Orderly(reports, w) && Breaks(reports, m, w, i)
    ensures !HoldsThrough(m, w, CallPlan(reports, w, i.call).writes, i.writes)
  {
    hide CallPlan, CallSplits, Orderly, Crash;
    var xs := CallPlan(reports, w, i.call).writes;
    match m
    case FenceClaim => FenceLost(reports, w, i); assert !Holds(m, Crash(w, xs, i.writes));
    case SettledClaim => Unsettled(reports, w, i); assert !Holds(m, Crash(w, xs, i.writes));
    case BetweenClaim => Strayed(reports, w, i); assert !Holds(m, Crash(w, xs, 1));
  }

  lemma HarmfulSplits(reports: Digest -> (nat, nat), m: Claim, w: World, c: Call)
    requires !Harmless(reports, Only(m), w, c) && !m.BetweenClaim?
    ensures CallSplits(reports, w, c) && !c.RetryRollback? && CallEntry(reports, w, c).Drains?
  {
  }

  lemma Unbroken(reports: Digest -> (nat, nat), m: Claim, w: World, i: Interrupted)
    requires Inv(reports, Only(m), w) && !Breaks(reports, m, w, i)
    ensures forall j: nat :: j <= i.writes ==> Inv(reports, Only(m), Crash(w, CallPlan(reports, w, i.call).writes, j))
  {
    hide CallPlan, CallSplits, CallStrays, Inv, Crash;
    var c := i.call;
    if Harmless(reports, Only(m), w, c) {
      HarmlessHolds(reports, m, w, c);
    } else if m.BetweenClaim? {
      CrashPrefix(w, [], CallPlan(reports, w, c).writes, 0);
      ApplyOne(w, DropFence);
      assert [] + CallPlan(reports, w, c).writes == CallPlan(reports, w, c).writes;
    } else {
      HarmfulSplits(reports, m, w, c);
      CutShort(reports, w, c);
      var t, b := CallEntry(reports, w, c).tx, c.facts.rollback;
      var closed := Optional(b.savesDone, SaveTx(t.(phase := RolledBack, deferred := false)));
      if m.FenceClaim? {
        var d := Ending(c, false, false);
        var rest := Optional(b.clears, DropFence) + closed;
        assert CallPlan(reports, w, c).writes == CallPlan(reports, w, d).writes + rest;
        StoppedHolds(reports, m, w, c, d, rest, i.writes);
      } else {
        StoppedHolds(reports, m, w, c, Ending(c, b.clears, false), closed, i.writes);
      }
    }
  }

  // ---------------------------------------------------------------- runs

  /** A claim holds at every crash point of a run. */
  ghost predicate HoldsInRun(reports: Digest -> (nat, nat), m: Claim, w: World, run: seq<Interrupted>)
    decreases |run|
  {
    && Holds(m, w)
    && (run != [] ==>
          && HoldsThrough(m, w, CallPlan(reports, w, run[0].call).writes, run[0].writes)
          && HoldsInRun(reports, m, Step(reports, w, run[0]), run[1..]))
  }

  predicate NoneBreaks(reports: Digest -> (nat, nat), m: Claim, w: World, run: seq<Interrupted>)
    decreases |run|
  {
    run != [] ==> !Breaks(reports, m, w, run[0]) && NoneBreaks(reports, m, Step(reports, w, run[0]), run[1..])
  }

  /** Over every run, with any errors, observations and crashes: a claim holds at every crash point
      if and only if no call of the run breaks it. */
  lemma {:induction false} RunExactly(reports: Digest -> (nat, nat), m: Claim, w: World, run: seq<Interrupted>)
    requires Orderly(reports, w) && Holds(m, w)
    ensures HoldsInRun(reports, m, w, run) <==> NoneBreaks(reports, m, w, run)
    decreases |run|
  {
    hide CallPlan, Breaks, Orderly, HoldsThrough, Step;
    if run != [] {
      CallExactly(reports, m, w, run[0]);
      if !Breaks(reports, m, w, run[0]) { RunExactly(reports, m, Step(reports, w, run[0]), run[1..]); }
    }
  }

  /** A switch strays only from a state that an unsettling call has left. */
  lemma StraysNeedsUnsettled(reports: Digest -> (nat, nat), w: World, i: Interrupted)
    requires Settled(w)
    ensures !Strays(reports, w, i)
  {
  }

  /** No call of a run is split. */
  predicate NoneSplits(reports: Digest -> (nat, nat), w: World, run: seq<Interrupted>)
    decreases |run|
  {
    run != [] ==> !CallSplits(reports, w, run[0].call) && NoneSplits(reports, Step(reports, w, run[0]), run[1..])
  }

  /** Without a split call no claim is ever lost. */
  lemma {:induction false} RunsAreSafe(reports: Digest -> (nat, nat), w: World, run: seq<Interrupted>)
    requires Orderly(reports, w) && FenceSafe(w) && BetweenPrograms(w) && Settled(w) && NoneSplits(reports, w, run)
    ensures forall m :: HoldsInRun(reports, m, w, run)
    decreases |run|
  {
    forall m ensures HoldsInRun(reports, m, w, run) {
      NoneSplitsBreaks(reports, w, run, m);
      RunExactly(reports, m, w, run);
    }
  }

  lemma {:induction false} NoneSplitsBreaks(reports: Digest -> (nat, nat), w: World, run: seq<Interrupted>, m: Claim)
    requires Orderly(reports, w) && Settled(w) && NoneSplits(reports, w, run)
    ensures NoneBreaks(reports, m, w, run)
    decreases |run|
  {
    hide CallPlan, CallSplits, CallStrays, Orderly, Settled, Step;
    if run != [] {
      StraysNeedsUnsettled(reports, w, run[0]);
      CallExactly(reports, SettledClaim, w, run[0]);
      NoneSplitsBreaks(reports, Step(reports, w, run[0]), run[1..], m);
    }
  }

  // ---------------------------------------------------------------- the failing calls can happen

  const OLD := Ref(1, 1, 1)
  const NEW := Ref(2, 2, 2)
  const THIRD := Ref(3, 3, 3)
  const START := World(Assigned(OLD, None, 1), OLD.Place(), None, None)

  function OwnLabel(): Digest -> (nat, nat) { (d: Digest) => (d, d) }

  /** Everything goes well except that writing the config reports an error after the replacement. */
  function UnluckyFacts(clears: bool): Facts {
    Facts(true, false, true, true, true, true, true, true, Written, true, true, FailedAfterReplace,
          RollbackFacts(true, true, Written, true, true, true, clears, true))
  }

  function Upgrade(to: Ref, expected: nat, clears: bool): Interrupted {
    Interrupted(ApplyTo(to, expected, UnluckyFacts(clears)), 100)
  }

  /** From an ordinary start an upgrade can lose the fence, or keep it and stay unsettled. */
  lemma FenceLossReachable()
    ensures Orderly(OwnLabel(), START) && forall m :: Holds(m, START)
    ensures !HoldsInRun(OwnLabel(), FenceClaim, START, [Upgrade(NEW, 1, true)])
    ensures !HoldsInRun(OwnLabel(), SettledClaim, START, [Upgrade(NEW, 1, false)])
  {
    var unsafe, kept := Upgrade(NEW, 1, true), Upgrade(NEW, 1, false);
    assert CallSplits(OwnLabel(), START, kept.call);
    assert CallSplits(OwnLabel(), START, unsafe.call);
    RunExactly(OwnLabel(), FenceClaim, START, [unsafe]);
    RunExactly(OwnLabel(), SettledClaim, START, [kept]);
  }

  /** After the second of these a switch to a third program strays. */
  lemma StrayReachable()
    ensures Orderly(OwnLabel(), START) && BetweenPrograms(START)
    ensures !HoldsInRun(OwnLabel(), BetweenClaim, START, [Upgrade(NEW, 1, false), Upgrade(THIRD, 2, true)])
  {
    var kept, third := Upgrade(NEW, 1, false), Upgrade(THIRD, 2, true);
    var w1 := Step(OwnLabel(), START, kept);
    StrayStart();
    assert Strays(OwnLabel(), w1, third);
    RunExactly(OwnLabel(), BetweenClaim, START, [kept, third]);
    assert [kept, third][1..] == [third];
  }

  lemma StrayStart()
    ensures Step(OwnLabel(), START, Upgrade(NEW, 1, false))
            == World(Assigned(NEW, Some(OLD), 2), OLD.Place(),
                Some(Tx(ApplyOp, RolledBack, 1, 2, OLD, NEW, false, false)),
                     Some(Fence(2, 2, 2)))
  {
    var c := Upgrade(NEW, 1, false).call;
    assert CallSplits(OwnLabel(), START, c);
    SplitCallEnds(OwnLabel(), START, c);
    var xs := CallPlan(OwnLabel(), START, c).writes;
    assert xs + [] == xs;
    CrashPrefix(START, xs, [], 100);
  }
}
