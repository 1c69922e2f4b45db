/**
 What a recovery that is left alone may answer, for every directory: it succeeds only with a
 snapshot that is in the files and agrees with their log, and what it cannot read it sets aside.
 */
module Verdicts {
  import opened Wrappers
  import opened EventLog
  import opened Disk
  import opened Recovery
  import opened Atomicity
  import opened Durability
  import opened Restore
  import opened Quarantine

  // ---------------------------------------------------------------- success

  /** The contents of a repository that has no files yet. */
  predicate IsEmpty<C(==,!new)>(env: Env<C>, f: Fresh, s: Snapshot<C>) {
    && s.revision == 0 && s.body == env.empty && s.updatedAt == f.now && s.repoId == env.repo && !s.blocked
  }

  /** The state file holds `s`, once normalised, and is of this repository and schema. */
  predicate InState<C(==,!new)>(env: Env<C>, d: Files<C>, s: Snapshot<C>) {
    && d.state.Present? && d.state.value.version == CURRENT_VERSION && d.state.value.repoId == env.repo
    && s == env.normalize(d.state.value)
  }

  /** The files say `s`: their state is `s` and their log ends at it, or there is neither. */
  ghost predicate Says<C(!new)>(env: Env<C>, f: Fresh, d: Files<C>, s: Snapshot<C>) {
    var log := Read(env, d);
    && d.journal.Absent? && d.txn.Absent? && log.LogOk? && !log.partial
    && if d.state.Absent? then log.events == [] && IsEmpty(env, f, s)
       else InState(env, d, s) && env.validate(s) == Fine && Contiguous(s.revision, log.events)
  }

  /** The prepared transaction holds `s`, valid and with its own event. */
  predicate InTxn<C(==,!new)>(env: Env<C>, d: Files<C>, s: Snapshot<C>) {
    && d.txn.Present? && s == env.normalize(d.txn.value.snapshot) && env.validate(s) == Fine
    && s.repoId == env.repo && s.revision == d.txn.value.event.sequence > 0 && d.txn.value.event.repoId == env.repo
  }

  /** The state file of a log with a torn tail holds `s` before the repair was recorded. */
  ghost predicate InTornState<C(!new)>(env: Env<C>, f: Fresh, d: Files<C>, s: Snapshot<C>) {
    && d.txn.Absent? && d.state.Present? && Read(env, d).LogOk? && Read(env, d).partial
    && var was := env.normalize(d.state.value);
    InState(env, d, was) && s == was.(revision := was.revision + 1, updatedAt := f.now)
  }

  /** Where a recovered snapshot may come from. */
  ghost predicate Origin<C(!new)>(env: Env<C>, f: Fresh, d: Files<C>, s: Snapshot<C>) {
    var log := Read(env, d);
    || InState(env, d, s) || InTxn(env, d, s) || InTornState(env, f, d, s)
    || (d.state.Absent? && d.txn.Absent? && log.LogOk? && log.events == [] && !log.partial && IsEmpty(env, f, s))
  }

  // ---------------------------------------------------------------- quarantine and refusal

  /** Only the marker is live, and the backup holds at least these lines. */
  ghost predicate Marked<C(!new)>(env: Env<C>, f: Fresh, lines: seq<Byte>, d: Files<C>, s: Snapshot<C>) {
    && s == MarkerSnapshot(env, f) && d.state == Present(s) && d.txn.Absent? && d.log == Line(env, MarkerEvent(env, f))
    && lines <= BackupAt(d, f.backupDir).log
  }

  predicate StateForeign<C>(d: Files<C>) {
    d.state.Foreign? || (d.state.Present? && d.state.value.version != CURRENT_VERSION)
  }

  predicate TxnForeign<C>(d: Files<C>) {
    || d.txn.Foreign?
    || (d.txn.Present?
        && (d.txn.value.version != CURRENT_VERSION || d.txn.value.snapshot.version != CURRENT_VERSION
            || d.txn.value.event.version != CURRENT_VERSION))
  }

  /** A torn tail whose repair would record a snapshot that is not valid. */
  ghost predicate Unrepairable<C(!new)>(env: Env<C>, d: Files<C>) {
    && d.txn.Absent? && Read(env, d).LogOk? && Read(env, d).partial
    && d.state.Present? && env.validate(env.normalize(d.state.value)) != Fine
  }

  /** Why a recovery may refuse to touch anything but a torn tail. */
  ghost predicate Excused<C(!new)>(env: Env<C>, f: Fresh, d: Files<C>) {
    || !MarkerValid(env, f) || StateForeign(d) || Read(env, d).LogIncompatible? || TxnForeign(d)
    || Unrepairable(env, d)
  }

  /** What a plan made at `d` may answer: a snapshot that its files then say, the marker, or, with an excuse,
      a refusal. */
  ghost predicate Honest<C(!new)>(
      env: Env<C>, f: Fresh, lines: seq<Byte>, excused: bool, d: Files<C>, plan: Plan<C>) {
    var d' := ApplyAll(d, plan.writes);
    match plan.outcome
    case Recovered(s) => Says(env, f, d', s)
    case Blocked(s) => Marked(env, f, lines, d', s)
    case Refused => excused
  }

  lemma HonestAfter<C(!new)>(
      env: Env<C>, f: Fresh, lines: seq<Byte>, excused: bool, d: Files<C>, ws: seq<Write<C>>, plan: Plan<C>)
    requires Honest(env, f, lines, excused, ApplyAll(d, ws), plan)
    ensures Honest(env, f, lines, excused, d, plan.After(ws))
  {
    hide Says, Marked;
    ApplyConcat(d, ws, plan.writes);
  }

  lemma QuarantineIsHonest<C(!new)>(env: Env<C>, f: Fresh, lines: seq<Byte>, excused: bool, d: Files<C>)
    requires f.backupDir !in d.backups && lines <= d.log && (!MarkerValid(env, f) ==> excused)
    ensures Honest(env, f, lines, excused, d, QuarantinePlan(env, f, d))
    ensures !QuarantinePlan(env, f, d).outcome.Recovered?
  {
    if MarkerValid(env, f) {
      QuarantineEnds(env, f, d);
      AsideMoves(d, f.backupDir);
    }
  }

  // ---------------------------------------------------------------- the branches of recovery

  lemma LoadedIsOurs<C(!new)>(env: Env<C>, d: Files<C>)
    requires env.Sound() && LoadState(env, d).Present?
    ensures InState(env, d, LoadState(env, d).value)
    ensures LoadState(env, d).value.repoId == env.repo && LoadState(env, d).value.version == CURRENT_VERSION
  {
    assert env.normalize(d.state.value).repoId == d.state.value.repoId;
    assert env.normalize(d.state.value).version == d.state.value.version;
  }

  /** A snapshot the validator accepts is loaded as it was written. */
  lemma WrittenLoads<C(!new)>(env: Env<C>, d: Files<C>)
    requires env.Sound() && d.state.Present? && d.state.value.repoId == env.repo && env.validate(d.state.value) == Fine
    ensures LoadState(env, d) == d.state
  {
  }

  /** What is asked of the directories that the branches below start from. */
  ghost predicate Whole<C(!new)>(env: Env<C>, f: Fresh, lines: seq<Byte>, excused: bool, d: Files<C>) {
    && d.journal.Absent? && Read(env, d).LogOk? && !Read(env, d).partial
    && f.backupDir !in d.backups && lines <= d.log && (!MarkerValid(env, f) ==> excused)
  }

  lemma ReadsCurrent<C(!new)>(env: Env<C>, d: Files<C>)
    ensures Read(env, d).LogOk? ==>
              forall k :: 0 <= k < |Read(env, d).events| ==> Read(env, d).events[k].version == CURRENT_VERSION
  {
    ParsedAreCurrent(env.codec, env.repo, d.log);
  }

  lemma ConsistencyEnds<C(!new)>(
      env: Env<C>, f: Fresh, lines: seq<Byte>, excused: bool, d: Files<C>, s: Snapshot<C>)
    requires env.Sound() && Whole(env, f, lines, excused, d) && d.txn.Absent? && LoadState(env, d) == Present(s)
    ensures var plan := ConsistencyPlan(env, f, d, s);
            && Honest(env, f, lines, excused, d, plan)
            && (plan.outcome.Recovered? ==> plan.outcome.snapshot == s)
  {
    hide QuarantinePlan;
    SequenceAccepted(s.revision, Read(env, d).events);
    LoadedIsOurs(env, d);
    ReadsCurrent(env, d);
    CurrentIsSupported(s.revision, Read(env, d).events);
    QuarantineIsHonest(env, f, lines, excused, d);
  }

  lemma CommitApplies<C(!new)>(env: Env<C>, d: Files<C>, t: Txn<C>)
    ensures ApplyAll(d, CommitWrites(env, t)) ==
            d.(state := Present(t.snapshot), log := d.log + Line(env, t.event), txn := Absent)
  {
    var ws := CommitWrites(env, t);
    var head, tail := [PutTxn(Filed(env, t)), Append(Line(env, t.event))], [PutState(t.snapshot), DropTxn];
    assert ws == head + tail;
    ApplyConcat(d, head, tail);
    ApplyFew(d, head[0], head[1]);
    ApplyFew(ApplyAll(d, head), tail[0], tail[1]);
  }

  lemma CommittedIsWhole<C(!new)>(env: Env<C>, f: Fresh, lines: seq<Byte>, excused: bool, d: Files<C>, t: Txn<C>)
    requires env.Sound() && Whole(env, f, lines, excused, d) && ValidateTxn(env, t) == Fine
    ensures var d1 := ApplyAll(d, CommitWrites(env, t));
            Whole(env, f, lines, excused, d1) && d1.txn.Absent? && LoadState(env, d1) == Present(t.snapshot)
  {
    hide CommitWrites, MarkerValid, Parse;
    var d1 := ApplyAll(d, CommitWrites(env, t));
    CommitApplies(env, d, t);
    AppendReads(env, d, t.event);
    assert Read(env, d1) == Read(env, Apply(d, Append(Line(env, t.event))));
    WrittenLoads(env, d1);
  }

  lemma RepairEnds<C(!new)>(env: Env<C>, f: Fresh, lines: seq<Byte>, excused: bool, d: Files<C>, s: Snapshot<C>)
    requires env.Sound() && Whole(env, f, lines, excused, d) && d.txn.Absent? && LoadState(env, d) == Present(s)
    requires env.validate(s) != Fine ==> excused
    ensures var plan := RepairPlan(env, f, d, s);
            && Honest(env, f, lines, excused, d, plan)
            && (plan.outcome.Recovered? ==>
                  plan.outcome.snapshot == s.(revision := s.revision + 1, updatedAt := f.now))
  {
    hide Honest, CommitWrites, LoadState, ConsistencyPlan, MarkerValid, Parse, Whole, Contiguous;
    var s' := s.(revision := s.revision + 1, updatedAt := f.now);
    var t := Txn(CURRENT_VERSION, s', RepairEvent(env, f, s.revision + 1, |d.log|));
    LoadedIsOurs(env, d);
    assert env.validate(Stamped(s, s.revision + 1, f.now)) == env.validate(s);
    if env.validate(s') == Fine {
      var d1 := ApplyAll(d, CommitWrites(env, t));
      CommittedIsWhole(env, f, lines, excused, d, t);
      ConsistencyEnds(env, f, lines, excused, d1, s');
      HonestAfter(env, f, lines, excused, d, CommitWrites(env, t), ConsistencyPlan(env, f, d1, s'));
    } else {
      RefusalIsHonest(env, f, lines, d);
    }
  }

  lemma RefusalIsHonest<C(!new)>(env: Env<C>, f: Fresh, lines: seq<Byte>, d: Files<C>)
    ensures Honest(env, f, lines, true, d, Plan([], Refused))
  {
  }

  /** The plan answers honestly, and if it recovers, with the snapshot `s`. */
  ghost predicate EndsIn<C(!new)>(
      env: Env<C>, f: Fresh, lines: seq<Byte>, excused: bool, d: Files<C>, plan: Plan<C>, s: Snapshot<C>) {
    Honest(env, f, lines, excused, d, plan) && (plan.outcome.Recovered? ==> plan.outcome.snapshot == s)
  }

  lemma SettleUntorn<C(!new)>(env: Env<C>, f: Fresh, lines: seq<Byte>, excused: bool, d: Files<C>, s: Snapshot<C>)
    requires env.Sound() && Whole(env, f, lines, excused, d) && d.txn.Absent? && LoadState(env, d) == Present(s)
    ensures EndsIn(env, f, lines, excused, d, SettlePlan(env, f, d, Present(s)), s)
  {
    hide Honest, ConsistencyPlan, LoadState, MarkerValid;
    ConsistencyEnds(env, f, lines, excused, d, s);
  }

  lemma AdvanceSame<C(!new)>(env: Env<C>, f: Fresh, lines: seq<Byte>, excused: bool, d: Files<C>, s: Snapshot<C>)
    requires env.Sound() && Whole(env, f, lines, excused, d) && LoadState(env, d) == Present(s)
    ensures EndsIn(env, f, lines, excused, d, SettlePlan(env, f, Apply(d, DropTxn), Present(s)).After([DropTxn]), s)
  {
    hide Honest, SettlePlan, MarkerValid, Parse;
    var d1 := Apply(d, DropTxn);
    ApplyFew(d, DropTxn, DropTxn);
    assert Read(env, d1) == Read(env, d) && LoadState(env, d1) == LoadState(env, d);
    SettleUntorn(env, f, lines, excused, d1, s);
    HonestAfter(env, f, lines, excused, d, [DropTxn], SettlePlan(env, f, d1, Present(s)));
  }

  lemma AdvanceAhead<C(!new)>(env: Env<C>, f: Fresh, lines: seq<Byte>, excused: bool, d: Files<C>, s: Snapshot<C>)
    requires env.Sound() && Whole(env, f, lines, excused, d) && env.validate(s) == Fine && s.repoId == env.repo
    ensures var ws := [PutState(s), DropTxn];
            EndsIn(env, f, lines, excused, d, SettlePlan(env, f, ApplyAll(d, ws), Present(s)).After(ws), s)
  {
    hide Honest, SettlePlan, MarkerValid, Parse;
    var ws := [PutState(s), DropTxn];
    var d1 := ApplyAll(d, ws);
    ApplyFew(d, ws[0], ws[1]);
    assert Read(env, d1) == Read(env, d);
    WrittenLoads(env, d1);
    SettleUntorn(env, f, lines, excused, d1, s);
    HonestAfter(env, f, lines, excused, d, ws, SettlePlan(env, f, d1, Present(s)));
  }

  lemma AdvanceEnds<C(!new)>(env: Env<C>, f: Fresh, lines: seq<Byte>, excused: bool, d: Files<C>, t: Txn<C>)
    requires env.Sound() && Whole(env, f, lines, excused, d) && ValidateTxn(env, t) == Fine
    ensures EndsIn(env, f, lines, excused, d, AdvancePlan(env, f, d, LoadState(env, d), t), t.snapshot)
  {
    hide Honest, SettlePlan, QuarantinePlan, MarkerValid, Parse, LoadState;
    var loaded := LoadState(env, d);
    QuarantineIsHonest(env, f, lines, excused, d);
    if loaded == Present(t.snapshot) {
      AdvanceSame(env, f, lines, excused, d, t.snapshot);
    } else if loaded.Present? && loaded.value.revision >= t.snapshot.revision {
      assert AdvancePlan(env, f, d, loaded, t) == QuarantinePlan(env, f, d);
    } else {
      AdvanceAhead(env, f, lines, excused, d, t.snapshot);
    }
  }

  lemma WholeEnds<C(!new)>(env: Env<C>, f: Fresh, lines: seq<Byte>, excused: bool, d: Files<C>, t: Txn<C>)
    requires env.Sound() && Whole(env, f, lines, excused, d) && ValidateTxn(env, t) == Fine
    ensures EndsIn(env, f, lines, excused, d, WholePlan(env, f, d, Read(env, d).events, LoadState(env, d), t),
            t.snapshot)
  {
    hide Honest, AdvancePlan, QuarantinePlan, Parse, MarkerValid;
    QuarantineIsHonest(env, f, lines, excused, d);
    AdvanceEnds(env, f, lines, excused, d, t);
    var add := Append(Line(env, t.event));
    var d1 := Apply(d, add);
    AppendReads(env, d, t.event);
    ApplyFew(d, add, add);
    AdvanceEnds(env, f, lines, excused, d1, t);
    assert LoadState(env, d1) == LoadState(env, d);
    HonestAfter(env, f, lines, excused, d, [add], AdvancePlan(env, f, d1, LoadState(env, d), t));
  }

  lemma CutApplies<C(!new)>(env: Env<C>, d: Files<C>)
    requires Read(env, d).LogOk?
    ensures var d1 := ApplyAll(d, Cut<C>(Read(env, d)));
            && d1 == d.(log := d1.log) && d1.log == Kept(env, d)
            && Read(env, d1) == LogOk(Read(env, d).events, Read(env, d).validBytes, false)
  {
    CutReads(env, d);
    ApplyFew(d, Truncate(Read(env, d).validBytes), DropTxn);
    if !Read(env, d).partial { KeptWhole(env, d); }
  }

  /** The complete lines of the log, or all of a log that cannot be read. */
  ghost function Lines<C(!new)>(env: Env<C>, d: Files<C>): seq<Byte> {
    if Read(env, d).LogOk? then Kept(env, d) else d.log
  }

  lemma CutIsWhole<C(!new)>(env: Env<C>, f: Fresh, excused: bool, d: Files<C>)
    requires d.journal.Absent? && Read(env, d).LogOk? && f.backupDir !in d.backups
    requires !MarkerValid(env, f) ==> excused
    ensures Whole(env, f, Lines(env, d), excused, ApplyAll(d, Cut(Read(env, d))))
    ensures Lines(env, d) <= d.log
  {
    hide MarkerValid;
    CutApplies(env, d);
  }

  lemma TxnVerdict<C(!new)>(env: Env<C>, t: Txn<C>)
    requires env.Sound()
    ensures ValidateTxn(env, t) == Incompatible <==>
            t.version != CURRENT_VERSION || t.snapshot.version != CURRENT_VERSION || t.event.version != CURRENT_VERSION
  {
  }

  lemma RedoVerdict<C(!new)>(env: Env<C>, f: Fresh, excused: bool, d: Files<C>)
    requires env.Sound() && d.journal.Absent? && Read(env, d).LogOk? && LoadTxn(env, d).Present?
    requires f.backupDir !in d.backups && (!MarkerValid(env, f) || TxnForeign(d) ==> excused)
    ensures var t := LoadTxn(env, d).value;
            var plan := RedoPlan(env, f, d, LoadState(env, d), t);
            && EndsIn(env, f, Lines(env, d), excused, d, plan, t.snapshot)
            && (plan.outcome.Recovered? ==> ValidateTxn(env, t) == Fine)
  {
    hide Honest, WholePlan, QuarantinePlan, Parse, MarkerValid, Whole, Lines;
    var t, lines := LoadTxn(env, d).value, Lines(env, d);
    CutIsWhole(env, f, excused, d);
    QuarantineIsHonest(env, f, lines, excused, d);
    RefusalIsHonest(env, f, lines, d);
    TxnVerdict(env, t);
    if ValidateTxn(env, t) == Fine {
      var cut := Cut(Read(env, d));
      var d1 := ApplyAll(d, cut);
      CutApplies(env, d);
      assert LoadState(env, d1) == LoadState(env, d);
      WholeEnds(env, f, lines, excused, d1, t);
      HonestAfter(env, f, lines, excused, d, cut, WholePlan(env, f, d1, Read(env, d).events, LoadState(env, d), t));
    }
  }

  lemma SettleTorn<C(!new)>(env: Env<C>, f: Fresh, excused: bool, d: Files<C>)
    requires env.Sound() && d.journal.Absent? && Read(env, d).LogOk? && d.txn.Absent? && f.backupDir !in d.backups
    requires LoadState(env, d).Present? && Read(env, d).partial
    requires !MarkerValid(env, f) || Unrepairable(env, d) ==> excused
    ensures var plan := SettlePlan(env, f, d, LoadState(env, d));
            && Honest(env, f, Lines(env, d), excused, d, plan)
            && (plan.outcome.Recovered? ==> InTornState(env, f, d, plan.outcome.snapshot))
  {
    hide RepairPlan, QuarantinePlan, MarkerValid, Parse, Honest, Whole, Lines, LastSequence;
    var loaded, lines := LoadState(env, d), Lines(env, d);
    var cut := Truncate(Read(env, d).validBytes);
    var d1 := Apply(d, cut);
    CutIsWhole(env, f, excused, d);
    CutApplies(env, d);
    ApplyFew(d, cut, cut);
    QuarantineIsHonest(env, f, lines, excused, d);
    QuarantineNeverRecovers(env, f, d);
    LoadedIsOurs(env, d);
    RepairEnds(env, f, lines, excused, d1, loaded.value);
    HonestAfter(env, f, lines, excused, d, [cut], RepairPlan(env, f, d1, loaded.value));
  }

  lemma SettleFresh<C(!new)>(env: Env<C>, f: Fresh, excused: bool, d: Files<C>)
    requires env.Sound() && d.journal.Absent? && Read(env, d).LogOk? && d.txn.Absent? && f.backupDir !in d.backups
    requires LoadState(env, d).Absent? && (!MarkerValid(env, f) ==> excused)
    ensures var plan := SettlePlan(env, f, d, LoadState(env, d));
            && Honest(env, f, Lines(env, d), excused, d, plan)
            && (plan.outcome.Recovered? ==> Origin(env, f, d, plan.outcome.snapshot))
  {
    hide Env.Sound, QuarantinePlan, MarkerValid, Parse, InState, InTxn, InTornState, Whole, Lines;
    CutIsWhole(env, f, excused, d);
    QuarantineIsHonest(env, f, Lines(env, d), excused, d);
  }

  lemma SettleVerdict<C(!new)>(env: Env<C>, f: Fresh, excused: bool, d: Files<C>)
    requires env.Sound() && d.journal.Absent? && Read(env, d).LogOk? && d.txn.Absent? && f.backupDir !in d.backups
    requires LoadState(env, d).Present? || LoadState(env, d).Absent?
    requires !MarkerValid(env, f) || Unrepairable(env, d) ==> excused
    ensures var plan := SettlePlan(env, f, d, LoadState(env, d));
            && Honest(env, f, Lines(env, d), excused, d, plan)
            && (plan.outcome.Recovered? ==> Origin(env, f, d, plan.outcome.snapshot))
  {
    hide QuarantinePlan, RepairPlan, ConsistencyPlan, MarkerValid, Parse, Honest, Whole, Lines, Unrepairable, InState,
         InTornState, InTxn, LoadState;
    var loaded := LoadState(env, d);
    if loaded.Absent? {
      SettleFresh(env, f, excused, d);
    } else if Read(env, d).partial {
      SettleTorn(env, f, excused, d);
    } else {
      CutIsWhole(env, f, excused, d);
      CutApplies(env, d);
      LoadedIsOurs(env, d);
      ApplyFew(d, DropTxn, DropTxn);
      ConsistencyEnds(env, f, Lines(env, d), excused, d, loaded.value);
    }
  }

  lemma CoreVerdict<C(!new)>(env: Env<C>, f: Fresh, d: Files<C>)
    requires env.Sound() && d.journal.Absent? && f.backupDir !in d.backups
    ensures var plan := CorePlan(env, f, d);
            && Honest(env, f, Lines(env, d), Excused(env, f, d), d, plan)
            && (plan.outcome.Recovered? ==> Origin(env, f, d, plan.outcome.snapshot))
  {
    hide Honest, RedoPlan, SettlePlan, QuarantinePlan, Parse, MarkerValid;
    var loaded, log, txn := LoadState(env, d), Read(env, d), LoadTxn(env, d);
    var excused := Excused(env, f, d);
    QuarantineIsHonest(env, f, Lines(env, d), excused, d);
    RefusalIsHonest(env, f, Lines(env, d), d);
    if !loaded.Garbage? && !loaded.Foreign? && log.LogOk? {
      if txn.Present? {
        RedoVerdict(env, f, excused, d);
      } else if txn.Absent? {
        SettleVerdict(env, f, excused, d);
      }
    }
  }

  lemma StagedUnjournalled<C(!new)>(env: Env<C>, d: Files<C>)
    requires JournalWrites(env, d).Some?
    ensures Staged(env, d).journal.Absent? && Staged(env, d).backups == d.backups
  {
    if d.journal.Present? { StagedFiles(env, d); }
  }

  /** What a recovery left alone may answer.  If it succeeds, its snapshot was in the files when it began: the
      loaded state, the snapshot of a valid pending transaction, the loaded state with a torn tail recorded, or
      the empty one where there was nothing; and the files it leaves say that snapshot.  If it blocks, only the
      marker is live, and the backup holds every line that was complete.  It refuses only for a cause. */
  lemma RecoveryIsHonest<C(!new)>(env: Env<C>, f: Fresh, d: Files<C>)
    requires env.Sound() && f.backupDir !in d.backups
    ensures var plan := RecoverPlan(env, f, d);
            && (JournalWrites(env, d).None? ==> plan == Plan([], Refused))
            && (JournalWrites(env, d).Some? ==>
                  var d1 := Staged(env, d);
                  && Honest(env, f, Lines(env, d1), Excused(env, f, d1), d, plan)
                  && (plan.outcome.Recovered? ==> Origin(env, f, d1, plan.outcome.snapshot)))
  {
    hide CorePlan, Origin, Honest, Excused, Lines;
    if JournalWrites(env, d).Some? {
      var d1 := Staged(env, d);
      StagedUnjournalled(env, d);
      CoreVerdict(env, f, d1);
      HonestAfter(env, f, Lines(env, d1), Excused(env, f, d1), d, JournalWrites(env, d).value, CorePlan(env, f, d1));
    }
  }

  // ---------------------------------------------------------------- what cannot be read

  /** The state file does not decode, or is another repository's. */
  predicate StateDamaged<C(!new)>(env: Env<C>, d: Files<C>) {
    || d.state.Garbage?
    || (d.state.Present? && d.state.value.version == CURRENT_VERSION && d.state.value.repoId != env.repo)
  }

  /** The transaction does not decode, or does not hold together. */
  predicate TxnDamaged<C(!new)>(env: Env<C>, d: Files<C>) {
    || d.txn.Garbage?
    || (d.txn.Present? && !TxnForeign(d)
        && var t := d.txn.value;
           || t.snapshot.repoId != env.repo || t.event.repoId != env.repo
           || t.event.sequence == 0 || t.snapshot.revision != t.event.sequence
           || env.validate(env.normalize(t.snapshot)) != Fine)
  }

  ghost predicate Unreadable<C(!new)>(env: Env<C>, d: Files<C>) {
    || StateDamaged(env, d)
    || (!StateForeign(d) && Read(env, d).LogCorrupt?)
    || (!StateForeign(d) && Read(env, d).LogOk? && TxnDamaged(env, d))
  }

  /** Something was written by another version, and nothing read before it is damaged. */
  ghost predicate Unsupported<C(!new)>(env: Env<C>, d: Files<C>) {
    || StateForeign(d)
    || (!StateDamaged(env, d) && Read(env, d).LogIncompatible?)
    || (!StateDamaged(env, d) && Read(env, d).LogOk? && TxnForeign(d))
  }

  lemma LoadedTxnVerdict<C(!new)>(env: Env<C>, d: Files<C>)
    requires env.Sound()
    ensures TxnDamaged(env, d) <==>
            var t := LoadTxn(env, d); t.Garbage? || (t.Present? && ValidateTxn(env, t.value) == Invalid)
    ensures TxnForeign(d) <==>
            var t := LoadTxn(env, d); t.Foreign? || (t.Present? && ValidateTxn(env, t.value) == Incompatible)
  {
    if d.txn.Present? {
      var s := d.txn.value.snapshot;
      assert env.normalize(s) == s.(body := env.normalize(s).body);
      TxnVerdict(env, Txn(d.txn.value.version, env.normalize(s), d.txn.value.event));
    }
  }

  lemma UnreadableCore<C(!new)>(env: Env<C>, f: Fresh, d: Files<C>)
    requires env.Sound()
    ensures Unreadable(env, d) ==> CorePlan(env, f, d) == QuarantinePlan(env, f, d)
    ensures Unsupported(env, d) ==> CorePlan(env, f, d) == Plan([], Refused)
  {
    hide QuarantinePlan, ValidateTxn, WholePlan, SettlePlan, Parse, LoadTxn, TxnDamaged, TxnForeign;
    LoadedTxnVerdict(env, d);
  }

  /** A state, log or transaction that cannot be read ends, once a staged restore is completed, with every
      file in the backup as it was and only the marker live; nothing is started anew in its place. */
  lemma UnreadableIsSetAside<C(!new)>(env: Env<C>, f: Fresh, d: Files<C>)
    requires env.Sound() && JournalWrites(env, d).Some? && f.backupDir !in d.backups
    requires Unreadable(env, Staged(env, d))
    ensures var d1, plan := Staged(env, d), RecoverPlan(env, f, d);
            var d' := ApplyAll(d, plan.writes);
            && BackupAt(d', f.backupDir) == Backup(d1.state, d1.log, d1.txn)
            && d'.backups - {f.backupDir} == d.backups - {f.backupDir} && d'.txn.Absent?
            && (MarkerValid(env, f) ==>
                  plan.outcome == Blocked(MarkerSnapshot(env, f)) && d'.state == Present(MarkerSnapshot(env, f)))
            && (!MarkerValid(env, f) ==> plan.outcome.Refused? && d'.state.Absent? && d'.log == [])
  {
    hide CorePlan, Unreadable, MarkerValid;
    var d1 := Staged(env, d);
    StagedUnjournalled(env, d);
    UnreadableCore(env, f, d1);
    ApplyConcat(d, JournalWrites(env, d).value, CorePlan(env, f, d1).writes);
    AsideMoves(d1, f.backupDir);
    if MarkerValid(env, f) { QuarantineEnds(env, f, d1); } else { AsideKeeps(d1, f.backupDir); }
  }

  /** Files of another version are refused and left as they are. */
  lemma UnsupportedIsRefused<C(!new)>(env: Env<C>, f: Fresh, d: Files<C>)
    requires env.Sound() && JournalWrites(env, d).Some? && Unsupported(env, Staged(env, d))
    ensures RecoverPlan(env, f, d) == Plan(JournalWrites(env, d).value, Refused)
  {
    hide CorePlan, Unsupported;
    UnreadableCore(env, f, Staged(env, d));
  }

  /** The marker blocks the repository and tells where the files are. */
  lemma MarkerTells<C(!new)>(env: Env<C>, f: Fresh, d: Files<C>)
    requires env.Sound() && Marked(env, f, [], d, MarkerSnapshot(env, f))
    ensures d.state.Present? && d.state.value.blocked && d.state.value.revision == 1
            && d.state.value.updatedAt == f.now && d.state.value.body == env.marker(f.backupDir)
    ensures var log := Read(env, d);
            && log.LogOk? && !log.partial && |log.events| == 1
            && log.events[0].kind == "recovery_blocked" && log.events[0].sequence == 1
            && log.events[0].payload == env.codec.compact(env.note(SetAsideAt(f.backupDir)))
  {
    ParseLine(env.codec, env.repo, MarkerEvent(env, f));
  }
}
