/**
 Switching one repository to another program version, and back.

 The durable facts are the committed assignment, the program of the LaunchAgent, the
 transaction and the maintenance fence.  A call is a sequence of writes; a crash, or an
 error that makes the call return, keeps a prefix of it.
 */
module Assignment {
  import opened Wrappers

  type Digest = nat

  /** A released program.  Its slot is named by version and digest. */
  datatype Ref = Ref(version: nat, commit: nat, digest: Digest)
  {
    function Place(): Slot { Slot(version, digest) }
  }

  datatype Slot = Slot(version: nat, digest: Digest)

  datatype Assigned = Assigned(ref: Ref, previous: Option<Ref>, generation: nat)

  datatype Operation = ApplyOp | RollbackOp

  datatype Phase = Planned | Draining | Applying | Validating | RollingBack | Succeeded | RolledBack | RollbackFailed

  datatype Tx = Tx(
    operation: Operation, phase: Phase, expected: nat, target: nat, current: Ref, desired: Ref, wasLoaded: bool,
    deferred: bool)
  {
    predicate Finished() { phase.Succeeded? || phase.RolledBack? }
    predicate Deferred() { phase.Draining? && deferred }
  }

  datatype Fence = Fence(generation: nat, version: nat, commit: nat)

  datatype World = World(config: Assigned, plist: Slot, tx: Option<Tx>, fence: Option<Fence>)

  datatype Write =
    | SaveTx(tx: Tx)
    | PutFence(fenced: Fence)
    | DropFence
    | PutPlist(slot: Slot)
    | PutConfig(config: Assigned)

  function Apply(w: World, x: Write): World {
    match x
    case SaveTx(t) => w.(tx := Some(t))
    case PutFence(f) => w.(fence := Some(f))
    case DropFence => w.(fence := None)
    case PutPlist(s) => w.(plist := s)
    case PutConfig(a) => w.(config := a)
  }

  function ApplyAll(w: World, xs: seq<Write>): World
    decreases |xs|
  {
    if xs == [] then w else ApplyAll(Apply(w, xs[0]), xs[1..])
  }

  /** The world after a crash that keeps `k` of the writes. */
  function Crash(w: World, xs: seq<Write>, k: nat): World {
    if k <= |xs| then ApplyAll(w, xs[..k]) else ApplyAll(w, xs)
  }

  // ---------------------------------------------------------------- what a call is told from outside

  /** How a write whose failure starts a rollback turns out. */
  datatype Attempt = Written | Failed | FailedAfterReplace

  /** Everything a rollback observes: each ignored error drops a write. */
  datatype RollbackFacts = RollbackFacts(
    savesRolling: bool, stopAllowed: bool, plist: Attempt, starts: bool, healthy: bool,
    savesFailed: bool, clears: bool, savesDone: bool)

  /** Everything a switch observes. */
  datatype Facts = Facts(
    slotsVerified: bool, loaded: bool, retryAllowed: bool, drains: bool, savesDeferred: bool, clearsDeferred: bool,
    stops: bool, controller: bool, plist: Attempt, starts: bool, healthy: bool, config: Attempt,
    rollback: RollbackFacts)

  datatype Outcome = Refused | AlreadyCurrent | Done | DeferredCall | WasRolledBack | RollbackStuck

  datatype Plan = Plan(writes: seq<Write>, outcome: Outcome)
  {
    function After(before: seq<Write>): Plan { Plan(before + writes, outcome) }
  }

  function Optional(kept: bool, x: Write): seq<Write> { if kept then [x] else [] }

  function Landed(a: Attempt, x: Write): seq<Write> { if a.Failed? then [] else [x] }

  // ---------------------------------------------------------------- rolling back

  function RollbackEnd(t: Tx, ok: bool, f: RollbackFacts): Plan {
    if ok then Plan(Optional(f.clears, DropFence) + Optional(f.savesDone,
        SaveTx(t.(phase := RolledBack, deferred := false))), WasRolledBack)
    else Plan(Optional(f.savesFailed, SaveTx(t.(phase := RollbackFailed, deferred := false))), RollbackStuck)
  }

  /** Puts the program of the committed assignment back; the fence goes only if that is healthy. */
  function RollbackPlan(c: Assigned, t: Tx, f: RollbackFacts): Plan {
    var first := Optional(f.savesRolling, SaveTx(t.(phase := RollingBack, deferred := false)));
    if !f.stopAllowed then RollbackEnd(t, false, f).After(first)
    else
      var put := Landed(f.plist, PutPlist(c.ref.Place()));
      RollbackEnd(t, f.plist.Written? && (t.wasLoaded ==> f.starts) && f.healthy, f).After(first + put)
  }

  // ---------------------------------------------------------------- switching

  /** The loaded program is the committed one: same digest, and it reports that version and commit. */
  predicate ProtocolMatches(reports: Digest -> (nat, nat), w: World) {
    && w.plist.digest == w.config.ref.digest
    && reports(w.plist.digest) == (w.config.ref.version, w.config.ref.commit)
  }

  function OperationOf(rollback: bool): Operation { if rollback then RollbackOp else ApplyOp }

  function FenceFor(t: Tx): Fence { Fence(t.target, t.desired.version, t.desired.commit) }

  function Committed(c: Assigned, t: Tx): Assigned { Assigned(t.desired, Some(c.ref), t.target) }

  function Finish(t: Tx): Tx {
    t.(phase := if t.operation.RollbackOp? then RolledBack else Succeeded, deferred := false)
  }

  /** From a healthy new program to the end: commit, then clear the fence, then close. */
  function CommitPlan(c: Assigned, t: Tx, f: Facts): Plan {
    if f.config.Written? then Plan([PutConfig(Committed(c, t)), DropFence, SaveTx(Finish(t))], Done)
    else
      var tried := Landed(f.config, PutConfig(Committed(c, t)));
      RollbackPlan(c, t, f.rollback).After(tried)
  }

  function ValidatePlan(c: Assigned, t: Tx, f: Facts): Plan {
    var t' := t.(phase := Validating, deferred := false);
    var save := [SaveTx(t')];
    if f.healthy then CommitPlan(c, t', f).After(save) else RollbackPlan(c, t', f.rollback).After(save)
  }

  function InstallPlan(c: Assigned, t: Tx, f: Facts): Plan {
    var t' := t.(phase := Applying, deferred := false);
    var first := [SaveTx(t')] + Landed(f.plist, PutPlist(t.desired.Place()));
    if f.plist.Written? && (t.wasLoaded ==> f.starts) then ValidatePlan(c, t', f).After(first)
    else RollbackPlan(c, t', f.rollback).After(first)
  }

  /** Fence, drain, install. */
  function DrainPlan(c: Assigned, t: Tx, loaded: bool, f: Facts): Plan {
    var t' := t.(phase := Draining, deferred := false);
    var first := [PutFence(FenceFor(t)), SaveTx(t')];
    if loaded && !f.drains then
      Plan(Optional(f.savesDeferred, SaveTx(t'.(deferred := true))) + Optional(f.clearsDeferred, DropFence),
          DeferredCall).After(first)
    else if loaded && !f.stops then RollbackPlan(c, t', f.rollback).After(first)
    else if t.operation.ApplyOp? && !f.controller then RollbackPlan(c, t', f.rollback).After(first)
    else InstallPlan(c, t', f).After(first)
  }

  function NewTx(w: World, desired: Ref, rollback: bool, loaded: bool): Tx {
    Tx(OperationOf(rollback), Planned, w.config.generation, w.config.generation + 1, w.config.ref, desired, loaded,
        false)
  }

  /** An unfinished transaction, unless it was deferred and left no fence. */
  predicate Active(w: World) {
    w.tx.Some? && !w.tx.value.Finished() && !w.tx.value.Deferred()
  }

  predicate DeferredStale(w: World) {
    w.tx.Some? && w.tx.value.Deferred()
    && (w.tx.value.expected != w.config.generation || w.tx.value.current != w.config.ref || w.fence.Some?)
  }

  predicate ResumingCommitted(w: World, desired: Ref, expected: nat) {
    Active(w) && w.tx.value.desired == desired && w.tx.value.expected == expected
    && w.config.generation == w.tx.value.target && w.config.ref == desired
  }

  /** The retained fence and transaction are exactly those of the failed switch. */
  predicate RetryMatches(w: World, desired: Ref, expected: nat, operation: Operation) {
    w.tx.Some? && w.tx.value.operation == operation && w.tx.value.expected == expected
    && w.tx.value.current == w.config.ref && w.tx.value.desired == desired
    && w.fence == Some(FenceFor(w.tx.value))
  }

  /** A call either stops early or drains: after some first writes it fences, drains and installs. */
  datatype Entry = Stops(plan: Plan) | Drains(before: seq<Write>, tx: Tx, loaded: bool)

  const REFUSED := Stops(Plan([], Refused))

  function SwitchEntry(
      reports: Digest -> (nat, nat), w: World, desired: Ref, expected: nat, rollback: bool, retry: bool,
      f: Facts): Entry
  {
    var operation := OperationOf(rollback);
    if !f.slotsVerified || DeferredStale(w) then REFUSED
    else if Active(w) && w.tx.value.operation != operation then REFUSED
    else if expected == 0 || (w.config.generation != expected && !ResumingCommitted(w, desired, expected)) then REFUSED
    else if w.config.ref == desired then
      if !ResumingCommitted(w, desired, expected) then Stops(Plan([], AlreadyCurrent))
      else if !f.healthy || w.plist != desired.Place() then REFUSED
      else Stops(Plan([DropFence, SaveTx(Finish(w.tx.value))], Done))
    else if !rollback && desired.version < w.config.ref.version then REFUSED
    else
      var retrying := w.tx.Some? && w.tx.value.phase.RollbackFailed?;
      if retrying && (!retry || !RetryMatches(w, desired, expected, operation)) then REFUSED
      else if Active(w) && w.tx.value.desired != desired then REFUSED
      else if Active(w) && w.tx.value.phase.RollingBack? then
        if w.tx.value.expected != w.config.generation || w.tx.value.current != w.config.ref then REFUSED
        else Stops(RollbackPlan(w.config, w.tx.value, f.rollback))
      else if retrying then
        if !f.retryAllowed then REFUSED
        else
          var t := w.tx.value.(phase := Planned, deferred := false);
          Drains([SaveTx(t)], t, false)
      else if f.loaded && !ProtocolMatches(reports, w) then REFUSED
      else if Active(w) then Drains([], w.tx.value, f.loaded)
      else
        var t := NewTx(w, desired, rollback, f.loaded);
        Drains([SaveTx(t)], t, f.loaded)
  }

  function EntryPlan(w: World, e: Entry, f: Facts): Plan {
    match e
    case Stops(plan) => plan
    case Drains(before, t, loaded) => DrainPlan(w.config, t, loaded, f).After(before)
  }

  function SwitchPlan(
      reports: Digest -> (nat, nat), w: World, desired: Ref, expected: nat, rollback: bool, retry: bool, f: Facts): Plan
  {
    EntryPlan(w, SwitchEntry(reports, w, desired, expected, rollback, retry, f), f)
  }

  // ---------------------------------------------------------------- the operator's calls

  /** A verified candidate's embedded version and commit are those of its manifest. */
  predicate Labelled(reports: Digest -> (nat, nat), r: Ref) { reports(r.digest) == (r.version, r.commit) }

  datatype Call =
    | ApplyTo(candidate: Ref, expected: nat, facts: Facts)
    | RollBack(expected: nat, facts: Facts)
    | Retry(expected: nat, facts: Facts)
    | RetryRollback(allowed: bool, observed: RollbackFacts)

  /** Puts the committed program back after a failed rollback; the fence must still be there. */
  function RetryRollbackPlan(w: World, allowed: bool, f: RollbackFacts): Plan {
    if w.tx.None? || !w.tx.value.phase.RollbackFailed? then Plan([], Refused)
    else
      var t := w.tx.value;
      if w.config.generation != t.expected || w.config.ref != t.current then Plan([], Refused)
      else if w.fence != Some(FenceFor(t)) || !allowed then Plan([], Refused)
      else
        var put := Landed(f.plist, PutPlist(w.config.ref.Place()));
        if !f.plist.Written? || (t.wasLoaded && !f.starts) then Plan(put, Refused)
        else if !f.healthy then Plan(put + Optional(f.savesFailed, SaveTx(t)), RollbackStuck)
        else Plan(put + [DropFence, SaveTx(t.(phase := RolledBack))], WasRolledBack)
  }

  function CallEntry(reports: Digest -> (nat, nat), w: World, c: Call): Entry {
    match c
    case ApplyTo(candidate, expected, f) =>
      if !Labelled(reports, candidate) then REFUSED
      else SwitchEntry(reports, w, candidate, expected, false, false, f)
    case RollBack(expected, f) =>
      if w.tx.Some? && !w.tx.value.Finished() && w.tx.value.operation.RollbackOp? && w.tx.value.expected == expected
      then SwitchEntry(reports, w, w.tx.value.desired, expected, true, false, f)
      else if w.config.previous.None? then REFUSED
      else SwitchEntry(reports, w, w.config.previous.value, expected, true, false, f)
    case Retry(expected, f) =>
      if w.tx.None? || !w.tx.value.phase.RollbackFailed? || w.tx.value.expected != expected then REFUSED
      else SwitchEntry(reports, w, w.tx.value.desired, expected, w.tx.value.operation.RollbackOp?, true, f)
    case RetryRollback(allowed, f) => Stops(RetryRollbackPlan(w, allowed, f))
  }

  function CallPlan(reports: Digest -> (nat, nat), w: World, c: Call): Plan {
    match c
    case RetryRollback(allowed, f) => RetryRollbackPlan(w, allowed, f)
    case _ => EntryPlan(w, CallEntry(reports, w, c), c.facts)
  }

  // ---------------------------------------------------------------- runs

  /** A call that stops after at most `writes` of its writes. */
  datatype Interrupted = Interrupted(call: Call, writes: nat)

  function Step(reports: Digest -> (nat, nat), w: World, i: Interrupted): World {
    Crash(w, CallPlan(reports, w, i.call).writes, i.writes)
  }

  function Run(reports: Digest -> (nat, nat), w: World, run: seq<Interrupted>): World
    decreases |run|
  {
    if run == [] then w else Run(reports, Step(reports, w, run[0]), run[1..])
  }

  // ---------------------------------------------------------------- lists of writes

  lemma {:induction false} ConcatApply(w: World, a: seq<Write>, b: seq<Write>)
    ensures ApplyAll(w, a + b) == ApplyAll(ApplyAll(w, a), b)
    decreases |a|
  {
    if a == [] {
      assert a + b == b;
    } else {
      assert (a + b)[0] == a[0] && (a + b)[1..] == a[1..] + b;
      ConcatApply(Apply(w, a[0]), a[1..], b);
    }
  }

  lemma ApplyOne(w: World, a: Write)
    ensures ApplyAll(w, [a]) == Apply(w, a) && ApplyAll(w, []) == w
  {
    assert [a][1..] == [];
    assert ApplyAll(Apply(w, a), []) == Apply(w, a);
  }

  lemma ApplyTwo(w: World, a: Write, b: Write)
    ensures ApplyAll(w, [a, b]) == Apply(Apply(w, a), b)
  {
    assert [a, b][1..] == [b];
    ApplyOne(Apply(w, a), b);
  }

  lemma ApplyThree(w: World, a: Write, b: Write, c: Write)
    ensures ApplyAll(w, [a, b, c]) == Apply(Apply(Apply(w, a), b), c)
  {
    assert [a, b, c][1..] == [b, c];
    ApplyTwo(Apply(w, a), b, c);
  }
}
