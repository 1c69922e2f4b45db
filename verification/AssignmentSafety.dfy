/**
 What the switch keeps at every crash point of every run, and exactly which calls break what.

 `Orderly` holds whatever happens.  Three further claims about the running program each hold
 until a call of a kind named here, and from that call on they fail.
 */
module AssignmentSafety {
  import opened Wrappers
  import opened Assignment

  // ---------------------------------------------------------------- the invariant

  /** The transaction has not been committed, or has been committed by exactly its own step. */
  predicate Uncommitted(w: World, t: Tx) { w.config.generation == t.expected && w.config.ref == t.current }

  predicate CommittedBy(w: World, t: Tx) {
    w.config.generation == t.target && w.config.ref == t.desired && w.config.previous == Some(t.current)
  }

  predicate RefsLabelled(reports: Digest -> (nat, nat), w: World) {
    && Labelled(reports, w.config.ref)
    && (w.config.previous.Some? ==> Labelled(reports, w.config.previous.value))
    && (w.tx.Some? ==> Labelled(reports, w.tx.value.current) && Labelled(reports, w.tx.value.desired))
    && reports(w.plist.digest).0 == w.plist.version
  }

  /** What saving a transaction checks: the next generation, and a change of program. */
  predicate ValidTx(t: Tx) { t.target == t.expected + 1 && t.expected > 0 && t.current != t.desired }

  predicate TxOrderly(w: World, t: Tx) {
    && (Uncommitted(w, t) || CommittedBy(w, t))
    && (t.Deferred() ==> Uncommitted(w, t) && w.plist == t.current.Place())
  }

  /** What every crash point of every call keeps, whatever is observed. */
  predicate Orderly(reports: Digest -> (nat, nat), w: World) {
    && RefsLabelled(reports, w) && w.config.generation > 0
    && (w.tx.Some? ==> ValidTx(w.tx.value))
    && (w.tx.Some? && !w.tx.value.Finished() ==> TxOrderly(w, w.tx.value))
  }

  /** Without a fence the LaunchAgent runs the committed program. */
  predicate FenceSafe(w: World) { w.fence.None? ==> w.plist == w.config.ref.Place() }

  /** While a transaction is unfinished the LaunchAgent runs one of its two programs. */
  predicate BetweenPrograms(w: World) {
    w.tx.Some? && !w.tx.value.Finished() ==>
      w.plist == w.tx.value.current.Place() || w.plist == w.tx.value.desired.Place()
  }

  /** With no switch under way the LaunchAgent runs the committed program. */
  predicate Settled(w: World) { !Active(w) ==> w.plist == w.config.ref.Place() }

  /** Which of the claims about the running program are being followed. */
  datatype Claims = Claims(fence: bool, between: bool, settled: bool)

  predicate Inv(reports: Digest -> (nat, nat), g: Claims, w: World) {
    && Orderly(reports, w)
    && (g.fence ==> FenceSafe(w))
    && (g.between ==> BetweenPrograms(w))
    && (g.settled ==> Settled(w))
  }

  ghost predicate Keeps(reports: Digest -> (nat, nat), g: Claims, w: World, xs: seq<Write>)
    decreases |xs|
  {
    Inv(reports, g, w) && (xs != [] ==> Keeps(reports, g, Apply(w, xs[0]), xs[1..]))
  }

  lemma {:induction false} KeepsCrash(reports: Digest -> (nat, nat), g: Claims, w: World, xs: seq<Write>, k: nat)
    requires Keeps(reports, g, w, xs)
    ensures Inv(reports, g, Crash(w, xs, k))
    decreases |xs|
  {
    if xs != [] && k > 0 {
      var j := if k <= |xs| then k - 1 else |xs|;
      KeepsCrash(reports, g, Apply(w, xs[0]), xs[1..], j);
      assert k <= |xs| ==> xs[..k][0] == xs[0] && xs[..k][1..] == xs[1..][..k - 1];
    }
  }

  lemma {:induction false} KeepsConcat(reports: Digest -> (nat, nat), g: Claims, w: World, a: seq<Write>, b: seq<Write>)
    requires Keeps(reports, g, w, a) && Keeps(reports, g, ApplyAll(w, a), b)
    ensures Keeps(reports, g, w, a + b)
    decreases |a|
  {
    if a == [] {
      assert a + b == b;
    } else {
      assert (a + b)[0] == a[0] && (a + b)[1..] == a[1..] + b;
      KeepsConcat(reports, g, Apply(w, a[0]), a[1..], b);
    }
  }

  lemma KeepsOne(reports: Digest -> (nat, nat), g: Claims, w: World, x: Write)
    requires Inv(reports, g, w)
    ensures Keeps(reports, g, w, []) && ApplyAll(w, []) == w && ApplyAll(w, [x]) == Apply(w, x)
    ensures Inv(reports, g, Apply(w, x)) ==> Keeps(reports, g, w, [x])
  {
    hide Inv;
    ApplyOne(w, x);
    assert [x][1..] == [];
    assert Inv(reports, g, Apply(w, x)) ==> Keeps(reports, g, Apply(w, x), []);
  }

  // ---------------------------------------------------------------- which calls break a claim

  /** Nothing stops the switch before it writes the config. */
  predicate Installs(t: Tx, loaded: bool, f: Facts) {
    && (loaded ==> f.drains && f.stops) && (t.operation.ApplyOp? ==> f.controller)
    && f.plist.Written? && (t.wasLoaded ==> f.starts) && f.healthy
  }

  predicate RollbackSucceeds(t: Tx, f: RollbackFacts) {
    f.stopAllowed && f.plist.Written? && (t.wasLoaded ==> f.starts) && f.healthy
  }

  /** The config was replaced although its write reported an error, and the program was rolled back. */
  predicate Splits(t: Tx, loaded: bool, f: Facts) {
    Installs(t, loaded, f) && f.config.FailedAfterReplace? && RollbackSucceeds(t, f.rollback)
  }

  predicate CallSplits(reports: Digest -> (nat, nat), w: World, c: Call) {
    var e := CallEntry(reports, w, c);
    !c.RetryRollback? && e.Drains? && Splits(e.tx, e.loaded, c.facts)
  }

  /** How many writes follow the clearing of the fence in such a rollback. */
  function Closing(f: Facts): nat { if f.rollback.savesDone then 1 else 0 }

  /** A split call that got as far as clearing the fence. */
  predicate LosesFence(reports: Digest -> (nat, nat), w: World, i: Interrupted) {
    && CallSplits(reports, w, i.call) && i.call.facts.rollback.clears
    && i.writes + Closing(i.call.facts) >= |CallPlan(reports, w, i.call).writes|
  }

  /** A split call that got as far as closing its transaction. */
  predicate Unsettles(reports: Digest -> (nat, nat), w: World, i: Interrupted) {
    && CallSplits(reports, w, i.call) && i.call.facts.rollback.savesDone
    && i.writes >= |CallPlan(reports, w, i.call).writes|
  }

  /** A new switch, begun while the LaunchAgent runs neither the committed program nor the wanted one. */
  predicate CallStrays(reports: Digest -> (nat, nat), w: World, c: Call) {
    var e := CallEntry(reports, w, c);
    !Active(w) && e.Drains? && w.plist != w.config.ref.Place() && w.plist != e.tx.desired.Place()
  }

  predicate Strays(reports: Digest -> (nat, nat), w: World, i: Interrupted) {
    CallStrays(reports, w, i.call) && i.writes > 0
  }

  /** No claim that is followed is broken by this call, wherever it stops. */
  predicate Harmless(reports: Digest -> (nat, nat), g: Claims, w: World, c: Call) {
    && (CallSplits(reports, w, c) ==>
          (g.fence ==> !c.facts.rollback.clears) && (g.settled ==> !c.facts.rollback.savesDone))
    && (g.between ==> !CallStrays(reports, w, c))
  }

  // ---------------------------------------------------------------- every segment keeps the claims

  /** The same switch, whatever phase it is in. */
  predicate SameSwitch(t: Tx, u: Tx) { t.(phase := u.phase, deferred := u.deferred) == u }

  /** A switch away from `c` is under way; if `c` is no longer committed the fence is still there. */
  predicate InHand(reports: Digest -> (nat, nat), g: Claims, w: World, c: Assigned, t: Tx) {
    && Inv(reports, g, w) && w.tx.Some? && !w.tx.value.Finished() && SameSwitch(w.tx.value, t) && c.ref == t.current
    && (w.config == c || (CommittedBy(w, t) && w.fence.Some? && !w.tx.value.Deferred()))
    && (w.config == c ==> Uncommitted(w, t))
  }

  lemma SaveKeeps(reports: Digest -> (nat, nat), g: Claims, w: World, c: Assigned, t: Tx, u: Tx)
    requires InHand(reports, g, w, c, t) && SameSwitch(t, u) && !u.Finished()
    requires u.Deferred() ==> w.config == c && w.plist == t.current.Place()
    ensures InHand(reports, g, Apply(w, SaveTx(u)), c, u)
    ensures Keeps(reports, g, w, [SaveTx(u)]) && ApplyAll(w, [SaveTx(u)]) == Apply(w, SaveTx(u))
  {
    KeepsOne(reports, g, w, SaveTx(u));
  }

  /** What a rollback may do without breaking a claim that is followed. */
  predicate MayRollBack(g: Claims, w: World, c: Assigned, f: RollbackFacts) {
    w.config == c || ((g.fence ==> !f.clears) && (g.settled ==> !f.savesDone))
  }

  lemma RollbackEndKeeps(
      reports: Digest -> (nat, nat), g: Claims, w: World, c: Assigned, t: Tx, ok: bool, f: RollbackFacts)
    requires InHand(reports, g, w, c, t)
    requires ok ==> w.plist == c.ref.Place() && MayRollBack(g, w, c, f)
    ensures Keeps(reports, g, w, RollbackEnd(t, ok, f).writes)
  {
    if ok {
      var first := Optional(f.clears, DropFence);
      var last := SaveTx(t.(phase := RolledBack, deferred := false));
      var w1 := ApplyAll(w, first);
      KeepsOne(reports, g, w, DropFence);
      KeepsOne(reports, g, w1, last);
      KeepsConcat(reports, g, w, first, Optional(f.savesDone, last));
    } else {
      KeepsOne(reports, g, w, SaveTx(t.(phase := RollbackFailed, deferred := false)));
    }
  }

  lemma PlaceKeeps(reports: Digest -> (nat, nat), g: Claims, w: World, c: Assigned, t: Tx, r: Ref)
    requires InHand(reports, g, w, c, t) && !w.tx.value.Deferred()
    requires r == t.current || r == t.desired
    requires w.fence.Some? || r == w.config.ref
    ensures Keeps(reports, g, w, [PutPlist(r.Place())]) && Keeps(reports, g, w, [])
    ensures InHand(reports, g, Apply(w, PutPlist(r.Place())), c, t)
    ensures ApplyAll(w, [PutPlist(r.Place())]) == Apply(w, PutPlist(r.Place())) && ApplyAll(w, []) == w
  {
    KeepsOne(reports, g, w, PutPlist(r.Place()));
  }

  /** A rollback can be interrupted at any write. */
  lemma RollbackKeeps(reports: Digest -> (nat, nat), g: Claims, w: World, c: Assigned, t: Tx, f: RollbackFacts)
    requires InHand(reports, g, w, c, t) && !w.tx.value.Deferred()
    requires RollbackSucceeds(t, f) ==> MayRollBack(g, w, c, f)
    ensures Keeps(reports, g, w, RollbackPlan(c, t, f).writes)
  {
    hide Inv, CommittedBy, Uncommitted;
    var rolling := t.(phase := RollingBack, deferred := false);
    var first := Optional(f.savesRolling, SaveTx(rolling));
    SaveKeeps(reports, g, w, c, t, rolling);
    KeepsOne(reports, g, w, SaveTx(rolling));
    var w1 := ApplyAll(w, first);
    SameInHand(reports, g, w1, c, if f.savesRolling then rolling else t, t);
    if !f.stopAllowed {
      RollbackEndKeeps(reports, g, w1, c, t, false, f);
      KeepsConcat(reports, g, w, first, RollbackEnd(t, false, f).writes);
    } else {
      var put := Landed(f.plist, PutPlist(c.ref.Place()));
      var ok := f.plist.Written? && (t.wasLoaded ==> f.starts) && f.healthy;
      PlaceKeeps(reports, g, w1, c, t, c.ref);
      var w2 := ApplyAll(w1, put);
      RollbackEndKeeps(reports, g, w2, c, t, ok, f);
      ConcatApply(w, first, put);
      KeepsConcat(reports, g, w, first, put);
      KeepsConcat(reports, g, w, first + put, RollbackEnd(t, ok, f).writes);
    }
  }

  lemma SameInHand(reports: Digest -> (nat, nat), g: Claims, w: World, c: Assigned, t: Tx, u: Tx)
    requires InHand(reports, g, w, c, t) && SameSwitch(t, u)
    ensures InHand(reports, g, w, c, u)
  {
  }

  /** What a switch may do without breaking a claim that is followed. */
  predicate MaySwitch(g: Claims, f: Facts) {
    f.config.FailedAfterReplace? ==> (g.fence ==> !f.rollback.clears) && (g.settled ==> !f.rollback.savesDone)
  }

  lemma PutConfigKeeps(reports: Digest -> (nat, nat), g: Claims, w: World, t: Tx)
    requires InHand(reports, g, w, w.config, t) && w.fence.Some? && w.plist == t.desired.Place()
    requires w.tx.value.phase.Validating?
    ensures var x := PutConfig(Committed(w.config, t));
            && Keeps(reports, g, w, [x]) && ApplyAll(w, [x]) == Apply(w, x)
            && Keeps(reports, g, w, []) && ApplyAll(w, []) == w
            && InHand(reports, g, Apply(w, x), w.config, t) && Apply(w, x).config != w.config
  {
    KeepsOne(reports, g, w, PutConfig(Committed(w.config, t)));
  }

  lemma CommitKeeps(reports: Digest -> (nat, nat), g: Claims, w: World, t: Tx, f: Facts)
    requires InHand(reports, g, w, w.config, t) && w.fence.Some? && w.plist == t.desired.Place()
    requires w.tx.value.phase.Validating?
    requires RollbackSucceeds(t, f.rollback) ==> MaySwitch(g, f)
    ensures Keeps(reports, g, w, CommitPlan(w.config, t, f).writes)
  {
    var c, put := w.config, PutConfig(Committed(w.config, t));
    var w1 := Apply(w, put);
    PutConfigKeeps(reports, g, w, t);
    if f.config.Written? {
      var drop, save := DropFence, SaveTx(Finish(t));
      KeepsOne(reports, g, w1, drop);
      KeepsOne(reports, g, Apply(w1, drop), save);
      KeepsConcat(reports, g, w1, [drop], [save]);
      assert [drop] + [save] == [drop, save];
      KeepsConcat(reports, g, w, [put], [drop, save]);
      assert [put] + [drop, save] == [put, drop, save];
    } else {
      var tried := Landed(f.config, put);
      RollbackKeeps(reports, g, ApplyAll(w, tried), c, t, f.rollback);
      KeepsConcat(reports, g, w, tried, RollbackPlan(c, t, f.rollback).writes);
    }
  }

  lemma ValidateKeeps(reports: Digest -> (nat, nat), g: Claims, w: World, t: Tx, f: Facts)
    requires InHand(reports, g, w, w.config, t) && w.fence.Some? && w.plist == t.desired.Place()
    requires f.healthy && RollbackSucceeds(t, f.rollback) ==> MaySwitch(g, f)
    ensures Keeps(reports, g, w, ValidatePlan(w.config, t, f).writes)
  {
    hide Inv, CommitPlan, RollbackPlan;
    var u := t.(phase := Validating, deferred := false);
    var w1 := Apply(w, SaveTx(u));
    SaveKeeps(reports, g, w, w.config, t, u);
    if f.healthy {
      CommitKeeps(reports, g, w1, u, f);
      KeepsConcat(reports, g, w, [SaveTx(u)], CommitPlan(w.config, u, f).writes);
    } else {
      RollbackKeeps(reports, g, w1, w.config, u, f.rollback);
      KeepsConcat(reports, g, w, [SaveTx(u)], RollbackPlan(w.config, u, f.rollback).writes);
    }
  }

  lemma InstallKeeps(reports: Digest -> (nat, nat), g: Claims, w: World, t: Tx, f: Facts)
    requires InHand(reports, g, w, w.config, t) && w.fence.Some?
    requires f.plist.Written? && (t.wasLoaded ==> f.starts) && f.healthy && RollbackSucceeds(t, f.rollback)
             ==> MaySwitch(g, f)
    ensures Keeps(reports, g, w, InstallPlan(w.config, t, f).writes)
  {
    hide Inv, ValidatePlan, RollbackPlan;
    var u := t.(phase := Applying, deferred := false);
    var put := Landed(f.plist, PutPlist(t.desired.Place()));
    var w1 := Apply(w, SaveTx(u));
    SaveKeeps(reports, g, w, w.config, t, u);
    PlaceKeeps(reports, g, w1, w.config, u, t.desired);
    var w2 := ApplyAll(w1, put);
    KeepsConcat(reports, g, w, [SaveTx(u)], put);
    ConcatApply(w, [SaveTx(u)], put);
    if f.plist.Written? && (t.wasLoaded ==> f.starts) {
      ValidateKeeps(reports, g, w2, u, f);
      KeepsConcat(reports, g, w, [SaveTx(u)] + put, ValidatePlan(w.config, u, f).writes);
    } else {
      RollbackKeeps(reports, g, w2, w.config, u, f.rollback);
      KeepsConcat(reports, g, w, [SaveTx(u)] + put, RollbackPlan(w.config, u, f.rollback).writes);
    }
  }

  lemma DeferKeeps(reports: Digest -> (nat, nat), g: Claims, w: World, t: Tx, f: Facts)
    requires InHand(reports, g, w, w.config, t) && w.plist == w.config.ref.Place() && t.phase.Draining? && !t.deferred
    ensures Keeps(reports, g, w, Optional(f.savesDeferred, SaveTx(t.(deferred := true)))
            + Optional(f.clearsDeferred, DropFence))
  {
    var save, drop := SaveTx(t.(deferred := true)), DropFence;
    var a, b := Optional(f.savesDeferred, save), Optional(f.clearsDeferred, drop);
    SaveKeeps(reports, g, w, w.config, t, t.(deferred := true));
    KeepsOne(reports, g, w, save);
    KeepsOne(reports, g, ApplyAll(w, a), drop);
    KeepsConcat(reports, g, w, a, b);
  }

  lemma FenceKeeps(reports: Digest -> (nat, nat), g: Claims, w: World, t: Tx)
    requires InHand(reports, g, w, w.config, t)
    ensures var x, u := PutFence(FenceFor(t)), t.(phase := Draining, deferred := false);
            var w2 := Apply(Apply(w, x), SaveTx(u));
            && Keeps(reports, g, w, [x, SaveTx(u)]) && ApplyAll(w, [x, SaveTx(u)]) == w2
            && InHand(reports, g, w2, w.config, u)
  {
    var x, u := PutFence(FenceFor(t)), t.(phase := Draining, deferred := false);
    KeepsOne(reports, g, w, x);
    SaveKeeps(reports, g, Apply(w, x), w.config, t, u);
    assert [x] + [SaveTx(u)] == [x, SaveTx(u)];
    KeepsConcat(reports, g, w, [x], [SaveTx(u)]);
    ApplyTwo(w, x, SaveTx(u));
  }

  lemma DrainKeeps(reports: Digest -> (nat, nat), g: Claims, w: World, t: Tx, loaded: bool, f: Facts)
    requires InHand(reports, g, w, w.config, t)
    requires loaded ==> w.plist == w.config.ref.Place()
    requires Installs(t, loaded, f) && RollbackSucceeds(t, f.rollback) ==> MaySwitch(g, f)
    ensures Keeps(reports, g, w, DrainPlan(w.config, t, loaded, f).writes)
  {
    hide Inv, InstallPlan, RollbackPlan;
    var u := t.(phase := Draining, deferred := false);
    var first := [PutFence(FenceFor(t)), SaveTx(u)];
    FenceKeeps(reports, g, w, t);
    var w2 := ApplyAll(w, first);
    if loaded && !f.drains {
      DeferKeeps(reports, g, w2, u, f);
      KeepsConcat(
        reports, g, w, first, Optional(f.savesDeferred, SaveTx(u.(deferred := true)))
            + Optional(f.clearsDeferred, DropFence));
    } else if (loaded && !f.stops) || (t.operation.ApplyOp? && !f.controller) {
      RollbackKeeps(reports, g, w2, w.config, u, f.rollback);
      KeepsConcat(reports, g, w, first, RollbackPlan(w.config, u, f.rollback).writes);
    } else {
      InstallKeeps(reports, g, w2, u, f);
      KeepsConcat(reports, g, w, first, InstallPlan(w.config, u, f).writes);
    }
  }

  // ---------------------------------------------------------------- every call keeps the claims

  /** Refs that report their own labels are told apart by their digests. */
  lemma ProtocolNamesProgram(reports: Digest -> (nat, nat), w: World)
    requires Orderly(reports, w) && ProtocolMatches(reports, w)
    ensures w.plist == w.config.ref.Place()
  {
  }

  lemma RetryRollbackKeeps(reports: Digest -> (nat, nat), g: Claims, w: World, allowed: bool, f: RollbackFacts)
    requires Inv(reports, g, w)
    ensures Keeps(reports, g, w, RetryRollbackPlan(w, allowed, f).writes)
  {
    KeepsOne(reports, g, w, DropFence);
    if RetryRollbackPlan(w, allowed, f).writes != [] {
      var t, put := w.tx.value, Landed(f.plist, PutPlist(w.config.ref.Place()));
      assert Uncommitted(w, t);
      PlaceKeeps(reports, g, w, w.config, t, w.config.ref);
      var w1 := ApplyAll(w, put);
      if f.plist.Written? && (t.wasLoaded ==> f.starts) {
        if !f.healthy {
          KeepsOne(reports, g, w1, SaveTx(t));
          KeepsConcat(reports, g, w, put, Optional(f.savesFailed, SaveTx(t)));
        } else {
          var drop, save := DropFence, SaveTx(t.(phase := RolledBack));
          KeepsOne(reports, g, w1, drop);
          KeepsOne(reports, g, Apply(w1, drop), save);
          assert [drop] + [save] == [drop, save];
          KeepsConcat(reports, g, w1, [drop], [save]);
          KeepsConcat(reports, g, w, put, [drop, save]);
        }
      }
    }
  }

  lemma ResumeKeeps(reports: Digest -> (nat, nat), g: Claims, w: World, desired: Ref, expected: nat)
    requires Inv(reports, g, w) && ResumingCommitted(w, desired, expected) && w.plist == desired.Place()
    ensures Keeps(reports, g, w, [DropFence, SaveTx(Finish(w.tx.value))])
  {
    var drop, save := DropFence, SaveTx(Finish(w.tx.value));
    KeepsOne(reports, g, w, drop);
    KeepsOne(reports, g, Apply(w, drop), save);
    assert [drop] + [save] == [drop, save];
    KeepsConcat(reports, g, w, [drop], [save]);
  }

  /** A switch that drains has its transaction in hand once the first writes are done. */
  lemma EntryInHand(
      reports: Digest -> (nat, nat), g: Claims, w: World, desired: Ref, expected: nat, rollback: bool, retry: bool,
      f: Facts)
    requires Inv(reports, g, w) && Labelled(reports, desired)
    requires SwitchEntry(reports, w, desired, expected, rollback, retry, f).Drains?
    requires g.between && !Active(w) ==> w.plist == w.config.ref.Place() || w.plist == desired.Place()
    ensures var e := SwitchEntry(reports, w, desired, expected, rollback, retry, f);
            var w1 := ApplyAll(w, e.before);
            && Keeps(reports, g, w, e.before) && InHand(reports, g, w1, w.config, e.tx) && w1.config == w.config
            && (e.loaded ==> w1.plist == w1.config.ref.Place())
  {
    var e := SwitchEntry(reports, w, desired, expected, rollback, retry, f);
    KeepsOne(reports, g, w, SaveTx(e.tx));
    if e.loaded { ProtocolNamesProgram(reports, w); }
  }

  lemma SwitchKeeps(
      reports: Digest -> (nat, nat), g: Claims, w: World, desired: Ref, expected: nat, rollback: bool, retry: bool,
      f: Facts)
    requires Inv(reports, g, w) && Labelled(reports, desired)
    requires var e := SwitchEntry(reports, w, desired, expected, rollback, retry, f);
             e.Drains? ==>
               && (Splits(e.tx, e.loaded, f) ==> MaySwitch(g, f))
               && (g.between && !Active(w) ==> w.plist == w.config.ref.Place() || w.plist == desired.Place())
    ensures Keeps(reports, g, w, SwitchPlan(reports, w, desired, expected, rollback, retry, f).writes)
  {
    hide DrainPlan, RollbackPlan;
    KeepsOne(reports, g, w, DropFence);
    match SwitchEntry(reports, w, desired, expected, rollback, retry, f)
    case Stops(plan) =>
      if plan.writes != [] {
        if ResumingCommitted(w, desired, expected) {
          ResumeKeeps(reports, g, w, desired, expected);
        } else {
          RollbackKeeps(reports, g, w, w.config, w.tx.value, f.rollback);
        }
      }
    case Drains(before, t, loaded) =>
      EntryInHand(reports, g, w, desired, expected, rollback, retry, f);
      DrainKeeps(reports, g, ApplyAll(w, before), t, loaded, f);
      KeepsConcat(reports, g, w, before, DrainPlan(w.config, t, loaded, f).writes);
  }

  lemma EntryWants(
      reports: Digest -> (nat, nat), w: World, desired: Ref, expected: nat, rollback: bool, retry: bool, f: Facts)
    ensures var e := SwitchEntry(reports, w, desired, expected, rollback, retry, f);
            e.Drains? ==> e.tx.desired == desired
  {
  }

  /** A call that breaks no claim keeps every claim, wherever it stops and whatever it observes. */
  lemma CallKeeps(reports: Digest -> (nat, nat), g: Claims, w: World, c: Call)
    requires Inv(reports, g, w) && Harmless(reports, g, w, c)
    ensures Keeps(reports, g, w, CallPlan(reports, w, c).writes)
  {
    hide SwitchEntry, RetryRollbackPlan, Inv;
    KeepsOne(reports, g, w, DropFence);
    LabelsOf(reports, g, w);
    match c
    case ApplyTo(candidate, expected, f) =>
      EntryWants(reports, w, candidate, expected, false, false, f);
      if Labelled(reports, candidate) { SwitchKeeps(reports, g, w, candidate, expected, false, false, f); }
    case RollBack(expected, f) =>
      if w.tx.Some? && !w.tx.value.Finished() && w.tx.value.operation.RollbackOp? && w.tx.value.expected == expected {
        EntryWants(reports, w, w.tx.value.desired, expected, true, false, f);
        SwitchKeeps(reports, g, w, w.tx.value.desired, expected, true, false, f);
      } else if w.config.previous.Some? {
        EntryWants(reports, w, w.config.previous.value, expected, true, false, f);
        SwitchKeeps(reports, g, w, w.config.previous.value, expected, true, false, f);
      }
    case Retry(expected, f) =>
      if w.tx.Some? && w.tx.value.phase.RollbackFailed? && w.tx.value.expected == expected {
        EntryWants(reports, w, w.tx.value.desired, expected, w.tx.value.operation.RollbackOp?, true, f);
        SwitchKeeps(reports, g, w, w.tx.value.desired, expected, w.tx.value.operation.RollbackOp?, true, f);
      }
    case RetryRollback(allowed, f) => RetryRollbackKeeps(reports, g, w, allowed, f);
  }

  lemma LabelsOf(reports: Digest -> (nat, nat), g: Claims, w: World)
    requires Inv(reports, g, w)
    ensures w.config.previous.Some? ==> Labelled(reports, w.config.previous.value)
    ensures w.tx.Some? ==> Labelled(reports, w.tx.value.desired)
  {
  }

  lemma StepIsOrderly(reports: Digest -> (nat, nat), w: World, i: Interrupted)
    requires Orderly(reports, w)
    ensures Orderly(reports, Step(reports, w, i))
  {
    hide CallPlan, Orderly, CallSplits, CallStrays;
    var none := Claims(false, false, false);
    CallKeeps(reports, none, w, i.call);
    KeepsCrash(reports, none, w, CallPlan(reports, w, i.call).writes, i.writes);
  }

  /** Whatever is observed and wherever calls stop, the transaction and the assignment stay in order. */
  lemma {:induction false} RunsAreOrderly(reports: Digest -> (nat, nat), w: World, run: seq<Interrupted>)
    requires Orderly(reports, w)
    ensures Orderly(reports, Run(reports, w, run))
    decreases |run|
  {
    hide CallPlan, Orderly;
    if run != [] {
      StepIsOrderly(reports, w, run[0]);
      RunsAreOrderly(reports, Step(reports, w, run[0]), run[1..]);
    }
  }
}
