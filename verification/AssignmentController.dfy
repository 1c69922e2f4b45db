/**
 The controller as an object that writes config, program, transaction and fence step
 by step.  It makes at most `budget` more writes; after that the process has stopped
 and nothing it still does reaches the disk.
 */
module AssignmentController {
  import opened Wrappers
  import opened Assignment
  import opened AssignmentSafety
  import opened AssignmentExact

  datatype Machine = Machine(world: World, budget: nat)

  ghost function Exec(m: Machine, xs: seq<Write>): Machine {
    Machine(Crash(m.world, xs, m.budget), if |xs| <= m.budget then m.budget - |xs| else 0)
  }

  lemma ExecConcat(m: Machine, a: seq<Write>, b: seq<Write>)
    ensures Exec(m, a + b) == Exec(Exec(m, a), b)
    ensures Exec(m, []) == m
  {
    ConcatApply(m.world, a, b);
    assert a[..|a|] == a && b[..|b|] == b && (a + b)[..|a + b|] == a + b;
    if m.budget < |a| {
      assert (a + b)[..m.budget] == a[..m.budget];
      assert b[..0] == [];
    } else if m.budget < |a + b| {
      assert (a + b)[..m.budget] == a + b[..m.budget - |a|];
      ConcatApply(m.world, a, b[..m.budget - |a|]);
    }
  }

  lemma ServeFacts(reports: Digest -> (nat, nat), w: World, i: Interrupted)
    requires Orderly(reports, w)
    ensures Orderly(reports, Step(reports, w, i))
    ensures forall m :: Holds(m, w) && !Breaks(reports, m, w, i) ==> Holds(m, Step(reports, w, i))
    ensures LosesFence(reports, w, i) ==> !FenceSafe(Step(reports, w, i))
  {
    hide CallPlan, Orderly, Breaks, LosesFence;
    StepIsOrderly(reports, w, i);
    forall m | Holds(m, w) && !Breaks(reports, m, w, i) ensures Holds(m, Step(reports, w, i)) {
      CallExactly(reports, m, w, i);
    }
    if LosesFence(reports, w, i) { FenceLost(reports, w, i); }
  }

  class Controller {
    const reports: Digest -> (nat, nat)
    var config: Assigned
    var plist: Slot
    var tx: Option<Tx>
    var fence: Option<Fence>
    var budget: nat

    function World(): World
      reads this
    {
      Assignment.World(config, plist, tx, fence)
    }

    ghost function View(): Machine
      reads this
    {
      Machine(World(), budget)
    }

    constructor (reports: Digest -> (nat, nat), w: World, budget: nat)
      ensures this.reports == reports && View() == Machine(w, budget)
    {
      this.reports, this.budget := reports, budget;
      config, plist, tx, fence := w.config, w.plist, w.tx, w.fence;
    }

    /** Makes one durable write, unless the process has stopped. */
    method Do(x: Write)
      modifies this
      ensures View() == Exec(old(View()), [x])
      ensures !x.PutConfig? ==> config == old(config)
    {
      assert [x][..1] == [x] && [x][..0] == [] && [x][1..] == [];
      assert ApplyAll(World(), [x]) == ApplyAll(Apply(World(), x), []);
      if budget == 0 { return; }
      budget := budget - 1;
      match x {
        case SaveTx(t) => tx := Some(t);
        case PutFence(f) => fence := Some(f);
        case DropFence => fence := None;
        case PutPlist(s) => plist := s;
        case PutConfig(a) => config := a;
      }
    }

    /** A write whose error is ignored. */
    method Try(works: bool, x: Write)
      modifies this
      ensures View() == Exec(old(View()), Optional(works, x))
    {
      ExecConcat(View(), [], []);
      if works { Do(x); }
    }

    /** A write that may fail with or without effect. */
    method Land(a: Attempt, x: Write)
      modifies this
      ensures View() == Exec(old(View()), Landed(a, x))
    {
      ExecConcat(View(), [], []);
      if !a.Failed? { Do(x); }
    }

    /** Restores the program of the assignment in memory; clears the fence only when it is healthy. */
    method RollbackSwitch(current: Assigned, failed: Tx, f: RollbackFacts) returns (out: Outcome)
      modifies this
      ensures View() == Exec(old(View()), RollbackPlan(current, failed, f).writes)
      ensures out == RollbackPlan(current, failed, f).outcome
    {
      ghost var m := View();
      var t := failed.(phase := RollingBack, deferred := false);
      ghost var done: seq<Write> := Optional(f.savesRolling, SaveTx(t));
      Try(f.savesRolling, SaveTx(t));
      var ok := f.stopAllowed;
      if ok {
        ghost var put := Landed(f.plist, PutPlist(current.ref.Place()));
        ExecConcat(m, done, put);
        Land(f.plist, PutPlist(current.ref.Place()));
        done := done + put;
        ok := f.plist.Written?;
      }
      if ok && t.wasLoaded { ok := f.starts; }
      if ok { ok := f.healthy; }
      ghost var last := RollbackEnd(failed, ok, f).writes;
      ExecConcat(m, done, last);
      if !ok {
        Try(f.savesFailed, SaveTx(t.(phase := RollbackFailed)));
        return RollbackStuck;
      }
      ExecConcat(View(), Optional(f.clears, DropFence), Optional(f.savesDone, SaveTx(t.(phase := RolledBack))));
      Try(f.clears, DropFence);
      Try(f.savesDone, SaveTx(t.(phase := RolledBack)));
      return WasRolledBack;
    }

    /** Fences, drains, installs, validates and commits one transaction. */
    method Execute(planned: Tx, loaded: bool, f: Facts) returns (out: Outcome)
      modifies this
      ensures View() == Exec(old(View()), DrainPlan(old(config), planned, loaded, f).writes)
      ensures out == DrainPlan(old(config), planned, loaded, f).outcome
    {
      hide RollbackPlan, Crash;
      ghost var m := View();
      ghost var plan := DrainPlan(config, planned, loaded, f);
      var current := config;
      var t := planned.(phase := Draining, deferred := false);
      ghost var done: seq<Write> := [PutFence(FenceFor(planned))] + [SaveTx(t)];
      ExecConcat(m, [PutFence(FenceFor(planned))], [SaveTx(t)]);
      Do(PutFence(FenceFor(planned)));
      Do(SaveTx(t));
      assert done == [PutFence(FenceFor(planned)), SaveTx(t)];
      if loaded && !f.drains {
        ghost var a, b := Optional(f.savesDeferred, SaveTx(t.(deferred := true))),
            Optional(f.clearsDeferred, DropFence);
        ExecConcat(m, done, a + b);
        ExecConcat(View(), a, b);
        Try(f.savesDeferred, SaveTx(t.(deferred := true)));
        Try(f.clearsDeferred, DropFence);
        return DeferredCall;
      }
      if (loaded && !f.stops) || (t.operation.ApplyOp? && !f.controller) {
        assert plan == RollbackPlan(current, t, f.rollback).After(done);
        ExecConcat(m, done, RollbackPlan(current, t, f.rollback).writes);
        out := RollbackSwitch(current, t, f.rollback);
        return;
      }
      t := t.(phase := Applying);
      ghost var install := [SaveTx(t)] + Landed(f.plist, PutPlist(t.desired.Place()));
      ExecConcat(m, done, install);
      ExecConcat(View(), [SaveTx(t)], Landed(f.plist, PutPlist(t.desired.Place())));
      Do(SaveTx(t));
      Land(f.plist, PutPlist(t.desired.Place()));
      if !f.plist.Written? || (t.wasLoaded && !f.starts) {
        ghost var back := RollbackPlan(current, t, f.rollback).writes;
        assert plan.writes == done + (install + back);
        assert done + (install + back) == (done + install) + back;
        ExecConcat(m, done + install, back);
        out := RollbackSwitch(current, t, f.rollback);
        return;
      }
      done := done + install;
      t := t.(phase := Validating);
      ExecConcat(m, done, [SaveTx(t)]);
      Do(SaveTx(t));
      done := done + [SaveTx(t)];
      if !f.healthy {
        ghost var back := RollbackPlan(current, t, f.rollback).writes;
        assert plan.writes == done + back;
        ExecConcat(m, done, back);
        out := RollbackSwitch(current, t, f.rollback);
        return;
      }
      var next := Assigned(t.desired, Some(current.ref), t.target);
      if !f.config.Written? {
        ghost var tried := Landed(f.config, PutConfig(next));
        ghost var back := RollbackPlan(current, t, f.rollback).writes;
        assert plan.writes == done + (tried + back);
        ExecConcat(m, done, tried + back);
        ExecConcat(View(), tried, back);
        Land(f.config, PutConfig(next));
        out := RollbackSwitch(current, t, f.rollback);
        return;
      }
      ghost var last := [PutConfig(next)] + ([DropFence] + [SaveTx(Finish(t))]);
      assert plan.writes == done + last;
      ExecConcat(m, done, last);
      ExecConcat(View(), [PutConfig(next)], [DropFence] + [SaveTx(Finish(t))]);
      Do(PutConfig(next));
      ExecConcat(View(), [DropFence], [SaveTx(Finish(t))]);
      Do(DropFence);
      Do(SaveTx(Finish(t)));
      return Done;
    }

    /** Switches to another program, resuming or refusing whatever an earlier call left behind. */
    method SwitchTo(desired: Ref, expected: nat, rollback: bool, retry: bool, f: Facts) returns (out: Outcome)
      modifies this
      ensures var plan := SwitchPlan(reports, old(World()), desired, expected, rollback, retry, f);
              View() == Exec(old(View()), plan.writes) && out == plan.outcome
    {
      hide RollbackPlan, DrainPlan, Crash;
      ghost var m := View();
      ExecConcat(m, [], []);
      var operation := OperationOf(rollback);
      if !f.slotsVerified || DeferredStale(World()) { return Refused; }
      var active := Active(World());
      if active && tx.value.operation != operation { return Refused; }
      var resuming := ResumingCommitted(World(), desired, expected);
      if expected == 0 || (config.generation != expected && !resuming) { return Refused; }
      if config.ref == desired {
        if !resuming { return AlreadyCurrent; }
        if !f.healthy || plist != desired.Place() { return Refused; }
        var closing := Finish(tx.value);
        assert [DropFence] + [SaveTx(closing)] == [DropFence, SaveTx(closing)];
        ExecConcat(m, [DropFence], [SaveTx(closing)]);
        Do(DropFence);
        Do(SaveTx(closing));
        return Done;
      }
      if !rollback && desired.version < config.ref.version { return Refused; }
      var retrying := tx.Some? && tx.value.phase.RollbackFailed?;
      if retrying && (!retry || !RetryMatches(World(), desired, expected, operation)) { return Refused; }
      if active && tx.value.desired != desired { return Refused; }
      if active && tx.value.phase.RollingBack? {
        if tx.value.expected != config.generation || tx.value.current != config.ref { return Refused; }
        out := RollbackSwitch(config, tx.value, f.rollback);
        return;
      }
      var loaded := f.loaded;
      if retrying {
        if !f.retryAllowed { return Refused; }
        loaded := false;
      } else if loaded && !ProtocolMatches(reports, World()) {
        return Refused;
      }
      if active && !retrying {
        assert [] + DrainPlan(config, tx.value, loaded, f).writes == DrainPlan(config, tx.value, loaded, f).writes;
        out := Execute(tx.value, loaded, f);
        return;
      }
      var t := if retrying then tx.value.(phase := Planned, deferred := false)
          else NewTx(World(), desired, rollback, loaded);
      ExecConcat(m, [SaveTx(t)], DrainPlan(config, t, loaded, f).writes);
      Do(SaveTx(t));
      out := Execute(t, loaded, f);
    }

    /** Retries the rollback of a failed switch, with its fence still in place. */
    method RetryRollback(allowed: bool, f: RollbackFacts) returns (out: Outcome)
      modifies this
      ensures var plan := RetryRollbackPlan(old(World()), allowed, f);
              View() == Exec(old(View()), plan.writes) && out == plan.outcome
    {
      ghost var m := View();
      ExecConcat(m, [], []);
      if tx.None? || !tx.value.phase.RollbackFailed? { return Refused; }
      var t := tx.value;
      if config.generation != t.expected || config.ref != t.current { return Refused; }
      if fence != Some(FenceFor(t)) || !allowed { return Refused; }
      ghost var put := Landed(f.plist, PutPlist(config.ref.Place()));
      Land(f.plist, PutPlist(config.ref.Place()));
      if !f.plist.Written? || (t.wasLoaded && !f.starts) { return Refused; }
      if !f.healthy {
        ExecConcat(m, put, Optional(f.savesFailed, SaveTx(t)));
        Try(f.savesFailed, SaveTx(t));
        return RollbackStuck;
      }
      var closed := t.(phase := RolledBack);
      assert [DropFence] + [SaveTx(closed)] == [DropFence, SaveTx(closed)];
      ExecConcat(m, put, [DropFence] + [SaveTx(closed)]);
      ExecConcat(View(), [DropFence], [SaveTx(closed)]);
      Do(DropFence);
      Do(SaveTx(closed));
      return WasRolledBack;
    }

    /** Any of the operator's calls, stopped anywhere: the state stays in order, and a claim about the
        running program survives every call that does not break it. */
    method Serve(c: Call) returns (out: Outcome)
      modifies this
      ensures World() == Step(reports, old(World()), Interrupted(c, old(budget)))
      ensures out == CallPlan(reports, old(World()), c).outcome
      ensures old(Orderly(reports, World())) ==> Orderly(reports, World())
      ensures forall m :: old(Orderly(reports, World()) && Holds(m, World())
              && !Breaks(reports, m, World(), Interrupted(c, budget)))
                ==> Holds(m, World())
      ensures old(Orderly(reports, World()) && LosesFence(reports, World(), Interrupted(c, budget)))
              ==> !FenceSafe(World())
    {
      hide SwitchEntry, DrainPlan, RetryRollbackPlan, Orderly, Breaks, LosesFence;
      ghost var w, i := World(), Interrupted(c, budget);
      if Orderly(reports, w) { ServeFacts(reports, w, i); }
      assert Crash(w, [], budget) == w by { ExecConcat(View(), [], []); }
      match c {
        case ApplyTo(candidate, expected, f) =>
          if !Labelled(reports, candidate) { return Refused; }
          out := SwitchTo(candidate, expected, false, false, f);
        case RollBack(expected, f) =>
          if tx.Some? && !tx.value.Finished() && tx.value.operation.RollbackOp? && tx.value.expected == expected {
            out := SwitchTo(tx.value.desired, expected, true, false, f);
          } else {
            if config.previous.None? { return Refused; }
            out := SwitchTo(config.previous.value, expected, true, false, f);
          }
        case Retry(expected, f) =>
          if tx.None? || !tx.value.phase.RollbackFailed? || tx.value.expected != expected { return Refused; }
          out := SwitchTo(tx.value.desired, expected, tx.value.operation.RollbackOp?, true, f);
        case RetryRollback(allowed, f) =>
          out := RetryRollback(allowed, f);
      }
    }
  }
}
