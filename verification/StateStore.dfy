/**
 The store as an object whose methods update its files step by step.

 The object lives through at most one crash: it makes `budget` more writes and
 then stops, leaving `torn` bytes of the write in progress if that was an append.
 Every method is proved to make exactly the writes of its plan, up to the crash.
 */
module StateStore {
  import opened Wrappers
  import opened EventLog
  import opened Disk
  import opened Recovery
  import opened Update
  import opened Restore

  /** The files and how long the process will still run. */
  datatype Machine<C> = Machine(files: Files<C>, budget: nat, torn: nat, alive: bool)

  ghost function Exec<C>(m: Machine<C>, ws: seq<Write<C>>): Machine<C> {
    if !m.alive then m
    else if |ws| <= m.budget then m.(files := ApplyAll(m.files, ws), budget := m.budget - |ws|)
    else m.(files := CrashAt(m.files, ws, m.budget, m.torn), budget := 0, alive := false)
  }

  lemma ExecConcat<C>(m: Machine<C>, a: seq<Write<C>>, b: seq<Write<C>>)
    ensures Exec(m, a + b) == Exec(Exec(m, a), b)
    ensures Exec(m, []) == m
  {
    ApplyConcat(m.files, a, b);
    CrashConcat(m.files, a, b, m.budget, m.torn);
  }

  lemma ExecTwo<C>(m: Machine<C>, a: Write<C>, b: Write<C>)
    ensures Exec(m, [a, b]) == Exec(Exec(m, [a]), [b])
  {
    assert [a, b] == [a] + [b];
    ExecConcat(m, [a], [b]);
  }

  lemma ExecThree<C>(m: Machine<C>, a: Write<C>, b: Write<C>, c: Write<C>)
    ensures Exec(m, [a, b, c]) == Exec(Exec(Exec(m, [a]), [b]), [c])
  {
    assert [a, b, c] == [a] + [b, c];
    ExecConcat(m, [a], [b, c]);
    ExecTwo(Exec(m, [a]), b, c);
  }

  lemma ExecFour<C>(m: Machine<C>, a: Write<C>, b: Write<C>, c: Write<C>, e: Write<C>)
    ensures Exec(m, [a, b, c, e]) == Exec(Exec(Exec(Exec(m, [a]), [b]), [c]), [e])
  {
    assert [a, b, c, e] == [a] + [b, c, e];
    ExecConcat(m, [a], [b, c, e]);
    ExecThree(Exec(m, [a]), b, c, e);
  }

  /** A machine that starts with budget `k` ends in the files of a crash after `k` writes. */
  lemma ExecIsCrash<C>(m: Machine<C>, ws: seq<Write<C>>)
    requires m.alive
    ensures Exec(m, ws).files == CrashAt(m.files, ws, m.budget, m.torn)
    ensures Exec(m, ws).alive <==> m.budget >= |ws|
  {
    if m.budget >= |ws| { CrashBeyond(m.files, ws, m.budget, m.torn); }
  }

  class Store<C(==,!new)> {
    const env: Env<C>
    var state: Stored<Snapshot<C>>
    var txn: Stored<Txn<C>>
    var log: seq<Byte>
    var journal: Stored<Journal<C>>
    var backups: map<string, Backup<C>>
    var budget: nat
    var torn: nat
    var alive: bool

    function Disk(): Files<C>
      reads this
    {
      Files(state, txn, log, journal, backups)
    }

    function View(): Machine<C>
      reads this
    {
      Machine(Disk(), budget, torn, alive)
    }

    constructor (env: Env<C>, d: Files<C>, budget: nat, torn: nat)
      ensures this.env == env && View() == Machine(d, budget, torn, true)
    {
      this.env, this.budget, this.torn, alive := env, budget, torn, true;
      state, txn, log, journal, backups := d.state, d.txn, d.log, d.journal, d.backups;
    }

    /** Makes one durable write, unless the process stops first. */
    method Do(w: Write<C>) returns (ok: bool)
      modifies this
      ensures View() == Exec(old(View()), [w]) && ok == alive
    {
      ApplyFew(Disk(), w, w);
      if !alive { return false; }
      if budget == 0 {
        if w.Append? && torn <= |w.line| { log := log + w.line[..torn]; }
        alive := false;
        return false;
      }
      budget := budget - 1;
      match w {
        case PutState(s) => state := Present(s);
        case PutTxn(t) => txn := Present(t);
        case DropTxn => txn := Absent;
        case Append(line) => log := log + line;
        case Truncate(n) => if n <= |log| { log := log[..n]; }
        case ReplaceLog(b) => log := b;
        case PutJournal(j) => journal := Present(j);
        case DropJournal => journal := Absent;
        case SetAsideState(dir) =>
          backups, state := backups[dir := BackupAt(Disk(), dir).(state := state)], Absent;
        case SetAsideLog(dir) =>
          backups, log := backups[dir := BackupAt(Disk(), dir).(log := log)], [];
        case SetAsideTxn(dir) =>
          backups, txn := backups[dir := BackupAt(Disk(), dir).(txn := txn)], Absent;
        case StageState(dir, s) => backups := backups[dir := BackupAt(Disk(), dir).(state := Present(s))];
        case StageLog(dir, lines) => backups := backups[dir := BackupAt(Disk(), dir).(log := lines)];
      }
      return true;
    }

    method ReadLog() returns (r: LogRead)
      ensures r == Read(env, Disk())
    {
      r := ReadEvents(Reader(env.codec, env.repo), log);
    }

    /** Prepare, append, replace, remove: the order every crash argument rests on. */
    method Commit(t: Txn<C>) returns (ok: bool)
      modifies this
      ensures View() == Exec(old(View()), CommitWrites(env, t)) && ok == alive
    {
      ghost var m := View();
      ExecFour(m, PutTxn(Filed(env, t)), Append(Line(env, t.event)), PutState(t.snapshot), DropTxn);
      ok := Do(PutTxn(Filed(env, t)));
      if !ok { return; }
      ok := Do(Append(Line(env, t.event)));
      if !ok { return; }
      ok := Do(PutState(t.snapshot));
      if !ok { return; }
      ok := Do(DropTxn);
    }

    method SetFilesAside(dir: string) returns (ok: bool)
      modifies this
      ensures View() == Exec(old(View()), SetAside(old(Disk()), dir)) && ok == alive
    {
      ghost var m := View();
      ghost var a: seq<Write<C>> := if state.Absent? then [] else [SetAsideState(dir)];
      ghost var b: seq<Write<C>> := if log == [] then [] else [SetAsideLog(dir)];
      ghost var c: seq<Write<C>> := if txn.Absent? then [] else [SetAsideTxn(dir)];
      ExecConcat(m, a, b);
      ExecConcat(m, a + b, c);
      ExecConcat(m, [], []);
      ok := alive;
      if !state.Absent? { ok := Do(SetAsideState(dir)); }
      assert View() == Exec(m, a);
      if !ok { return; }
      ApplyFew(m.files, SetAsideState(dir), DropTxn);
      ExecConcat(View(), [], []);
      ghost var d1 := Disk();
      if log != [] { ok := Do(SetAsideLog(dir)); }
      assert View() == Exec(m, a + b);
      if !ok { return; }
      ApplyFew(d1, SetAsideLog(dir), DropTxn);
      ExecConcat(View(), [], []);
      if !txn.Absent? { ok := Do(SetAsideTxn(dir)); }
    }

    method Quarantine(f: Fresh) returns (out: Outcome<C>)
      modifies this
      ensures var plan := QuarantinePlan(env, f, old(Disk()));
              View() == Exec(old(View()), plan.writes) && (alive ==> out == plan.outcome)
    {
      ghost var m := View();
      ghost var aside := SetAside(Disk(), f.backupDir);
      var s, e := MarkerSnapshot(env, f), MarkerEvent(env, f);
      ExecConcat(m, aside, MarkerWrites(env, f));
      ExecTwo(Exec(m, aside), Append(Line(env, e)), PutState(s));
      var ok := SetFilesAside(f.backupDir);
      if !MarkerValid(env, f) { return Refused; }
      ok := Do(Append(Line(env, e)));
      if !ok { return Refused; }
      ok := Do(PutState(s));
      return Blocked(s);
    }

    method CheckConsistency(f: Fresh, s: Snapshot<C>) returns (out: Outcome<C>)
      modifies this
      ensures var plan := ConsistencyPlan(env, f, old(Disk()), s);
              View() == Exec(old(View()), plan.writes) && (alive ==> out == plan.outcome)
    {
      ExecConcat(View(), [], []);
      var events := ReadLog();
      if !events.LogOk? { return Refused; }
      match ValidateConsistency(env, s, events.events) {
        case Fine => return Recovered(s);
        case Incompatible => return Refused;
        case Invalid => out := Quarantine(f);
      }
    }

    method RecordRepair(f: Fresh, s: Snapshot<C>) returns (out: Outcome<C>)
      modifies this
      ensures var plan := RepairPlan(env, f, old(Disk()), s);
              View() == Exec(old(View()), plan.writes) && (alive ==> out == plan.outcome)
    {
      ghost var m := View();
      ExecConcat(m, [], []);
      var s' := s.(revision := s.revision + 1, updatedAt := f.now);
      var t := Txn(CURRENT_VERSION, s', RepairEvent(env, f, s.revision + 1, |log|));
      if env.validate(s') != Fine || ValidateTxn(env, t) != Fine { return Refused; }
      ghost var ws := CommitWrites(env, t);
      ExecConcat(m, ws, ConsistencyPlan(env, f, ApplyAll(m.files, ws), s').writes);
      var ok := Commit(t);
      if !ok { return Refused; }
      out := CheckConsistency(f, s');
    }

    /** What recovery does once no transaction is pending. */
    method Settle(f: Fresh, loaded: Stored<Snapshot<C>>) returns (out: Outcome<C>)
      modifies this
      ensures var plan := SettlePlan(env, f, old(Disk()), loaded);
              View() == Exec(old(View()), plan.writes) && (alive ==> out == plan.outcome)
    {
      ghost var m := View();
      ExecConcat(m, [], []);
      var events := ReadLog();
      if !events.LogOk? { return Refused; }
      if !loaded.Present? {
        if events.events != [] || events.partial { out := Quarantine(f); return; }
        return Recovered(env.EmptySnapshot(f.now));
      }
      var s := loaded.value;
      if !events.partial { out := CheckConsistency(f, s); return; }
      if s.revision != LastSequence(events.events) { out := Quarantine(f); return; }
      var cut: Write<C> := Truncate(events.validBytes);
      ApplyFew(m.files, cut, cut);
      ExecConcat(m, [cut], RepairPlan(env, f, Apply(m.files, cut), s).writes);
      var ok := Do(cut);
      if !ok { return Refused; }
      out := RecordRepair(f, s);
    }

    /** Brings the snapshot to the transaction, drops the transaction, and settles. */
    method Advance(f: Fresh, loaded: Stored<Snapshot<C>>, t: Txn<C>) returns (out: Outcome<C>)
      modifies this
      ensures var plan := AdvancePlan(env, f, old(Disk()), loaded, t);
              View() == Exec(old(View()), plan.writes) && (alive ==> out == plan.outcome)
    {
      ghost var m := View();
      var snapshot := loaded;
      ghost var ws: seq<Write<C>> := [DropTxn];
      if loaded.Present? && loaded.value.revision > t.snapshot.revision { out := Quarantine(f); return; }
      if loaded.Present? && loaded.value.revision == t.snapshot.revision {
        if loaded.value != t.snapshot { out := Quarantine(f); return; }
      } else {
        ws := [PutState(t.snapshot), DropTxn];
        snapshot := Present(t.snapshot);
      }
      ExecTwo(m, PutState(t.snapshot), DropTxn);
      ApplyFew(m.files, DropTxn, DropTxn);
      ExecConcat(m, ws, SettlePlan(env, f, ApplyAll(m.files, ws), snapshot).writes);
      if snapshot != loaded || !loaded.Present? || loaded.value.revision < t.snapshot.revision {
        var ok := Do(PutState(t.snapshot));
        if !ok { return Refused; }
      }
      var ok := Do(DropTxn);
      if !ok { return Refused; }
      out := Settle(f, snapshot);
    }

    /** Replays the prepared transaction over the log and the snapshot. */
    method Redo(f: Fresh, events: LogRead, loaded: Stored<Snapshot<C>>, t: Txn<C>) returns (out: Outcome<C>)
      requires events == Read(env, Disk()) && events.LogOk?
      modifies this
      ensures var plan := RedoPlan(env, f, old(Disk()), loaded, t);
              View() == Exec(old(View()), plan.writes) && (alive ==> out == plan.outcome)
    {
      hide AdvancePlan, QuarantinePlan, Parse;
      ghost var m := View();
      ExecConcat(m, [], []);
      match ValidateTxn(env, t) {
        case Incompatible => return Refused;
        case Invalid => out := Quarantine(f); return;
        case Fine =>
      }
      ghost var cut: seq<Write<C>> := Cut(events);
      ghost var d1 := ApplyAll(m.files, cut);
      ExecConcat(m, cut, WholePlan(env, f, d1, events.events, loaded, t).writes);
      ApplyFew(m.files, DropTxn, DropTxn);
      if events.partial {
        var ok := Do(Truncate(events.validBytes));
        if !ok { return Refused; }
      }
      var last := LastSequence(events.events);
      if last == t.event.sequence {
        if events.events == [] || !SameEvent(events.events[|events.events| - 1], t.event) {
          out := Quarantine(f);
        } else {
          out := Advance(f, loaded, t);
        }
      } else if last + 1 == t.event.sequence {
        var add: Write<C> := Append(Line(env, t.event));
        ApplyFew(d1, add, add);
        ExecConcat(View(), [add], AdvancePlan(env, f, Apply(d1, add), loaded, t).writes);
        var ok := Do(add);
        if !ok { return Refused; }
        out := Advance(f, loaded, t);
      } else {
        out := Quarantine(f);
      }
    }

    /** Recovery of the three files, in the order they are read. */
    method RecoverFiles(f: Fresh) returns (out: Outcome<C>)
      modifies this
      ensures var plan := CorePlan(env, f, old(Disk()));
              View() == Exec(old(View()), plan.writes) && (alive ==> out == plan.outcome)
    {
      ExecConcat(View(), [], []);
      var loaded := LoadState(env, Disk());
      if loaded.Foreign? { return Refused; }
      if loaded.Garbage? { out := Quarantine(f); return; }
      var events := ReadLog();
      if events.LogIncompatible? { return Refused; }
      if events.LogCorrupt? { out := Quarantine(f); return; }
      var prepared := LoadTxn(env, Disk());
      if prepared.Foreign? { return Refused; }
      if prepared.Garbage? { out := Quarantine(f); return; }
      if prepared.Present? {
        out := Redo(f, events, loaded, prepared.value);
      } else {
        out := Settle(f, loaded);
      }
    }

    /** Completes a staged restore; false when its journal and backup are not acceptable. */
    method CompleteRestore() returns (ok: bool)
      modifies this
      ensures var pending := JournalWrites(env, old(Disk()));
              && View() == Exec(old(View()), if pending.Some? then pending.value else [])
              && (alive ==> ok == pending.Some?)
    {
      ghost var m := View();
      ExecConcat(m, [], []);
      if journal.Absent? { return true; }
      if !journal.Present? { return false; }
      var j := journal.value;
      var b := BackupAt(Disk(), j.backup);
      var events := ReadEvents(Reader(env.codec, env.repo), j.log);
      if j.repoId != env.repo || b.state != Present(j.state) || b.log != j.log { return false; }
      if env.validate(j.state) != Fine || j.state.repoId != env.repo || !events.LogOk? || events.partial {
        return false;
      }
      if j.txn.None? {
        if ValidateSequence(j.state.revision, events.events) != Fine { return false; }
        ExecThree(m, ReplaceLog(j.log), PutState(j.state), DropJournal);
      } else {
        if b.txn != Present(j.txn.value) { return false; }
        if ValidatePrepared(env, j.state, events.events, j.txn).None? { return false; }
        ExecFour(m, PutTxn(j.txn.value), ReplaceLog(j.log), PutState(j.state), DropJournal);
        ok := Do(PutTxn(j.txn.value));
        if !ok { return; }
      }
      ok := Do(ReplaceLog(j.log));
      if !ok { return; }
      ok := Do(PutState(j.state));
      if !ok { return; }
      ok := Do(DropJournal);
    }

    method Recover(f: Fresh) returns (out: Outcome<C>)
      modifies this
      ensures var plan := RecoverPlan(env, f, old(Disk()));
              View() == Exec(old(View()), plan.writes) && (alive ==> out == plan.outcome)
    {
      ghost var m := View();
      ghost var pending := JournalWrites(env, m.files);
      if pending.Some? {
        ExecConcat(m, pending.value, CorePlan(env, f, ApplyAll(m.files, pending.value)).writes);
      }
      var ok := CompleteRestore();
      if !ok || !alive { return Refused; }
      out := RecoverFiles(f);
    }

    method Rotate(f: Fresh, revision: nat, rotate: bool)
      modifies this
      ensures View() == Exec(old(View()), RotationWrites(env, f, revision, rotate))
    {
      ExecConcat(View(), [], []);
      if rotate {
        var _ := Do(ReplaceLog(Line(env, Checkpoint(env, f, revision))));
      }
    }

    /** One update: recover, edit, and commit the edited contents with the event that records them. */
    method Update(f: Fresh, r: Request<C>, rotate: bool) returns (out: Outcome<C>)
      modifies this
      ensures var plan := UpdatePlan(env, f, old(Disk()), r, rotate);
              View() == Exec(old(View()), plan.writes) && (alive ==> out == plan.outcome)
    {
      ghost var m := View();
      ghost var start := RecoverPlan(env, f, m.files);
      out := Recover(f);
      if !alive || !out.Recovered? || out.snapshot.blocked {
        ExecConcat(m, start.writes, UpdatePlan(env, f, m.files, r, rotate).writes[|start.writes|..]);
        return Refused;
      }
      var t := NextTxn(env, f, out.snapshot, r);
      if t.None? { return Refused; }
      ghost var commit := CommitWrites(env, t.value);
      ghost var rotation := RotationWrites(env, f, t.value.snapshot.revision, rotate);
      ExecConcat(m, start.writes, commit + rotation);
      ExecConcat(View(), commit, rotation);
      var ok := Commit(t.value);
      if !ok { return Refused; }
      Rotate(f, t.value.snapshot.revision, rotate);
      return Recovered(t.value.snapshot);
    }

    method Initialize(f: Fresh) returns (out: Outcome<C>)
      modifies this
      ensures var plan := InitializePlan(env, f, old(Disk()));
              View() == Exec(old(View()), plan.writes) && (alive ==> out == plan.outcome)
    {
      ghost var m := View();
      ghost var start := RecoverPlan(env, f, m.files);
      out := Recover(f);
      ghost var plan := InitializePlan(env, f, m.files);
      assert plan.writes[..|start.writes|] == start.writes;
      assert plan.writes == start.writes + plan.writes[|start.writes|..];
      ExecConcat(m, start.writes, plan.writes[|start.writes|..]);
      ExecConcat(View(), [], []);
      if !alive || out.Refused? || !state.Absent? { return; }
      if env.validate(out.snapshot) != Fine { return Refused; }
      var _ := Do(PutState(out.snapshot));
    }

    /** Reads the marker and the backup and checks, without a write, what can be restored. */
    method PreviewRestore(p: Repair<C>, dir: string) returns (r: Option<Snapshot<C>>)
      ensures r == PlanRestore(env, p, Disk(), dir)
    {
      var current := LoadState(env, Disk());
      if !current.Present? || dir !in backups { return None; }
      var s := current.value;
      var events := ReadLog();
      if !events.LogOk? || events.partial { return None; }
      if !s.blocked || s.revision != 1 || s.body != env.marker(dir) { return None; }
      if |events.events| != 1 || events.events[0].kind != "recovery_blocked" { return None; }
      if ValidateConsistency(env, s, events.events) != Fine { return None; }
      var b := BackupStore(backups[dir]);
      var restored := LoadState(env, b);
      if !restored.Present? || !b.txn.Absent? || !p.eligible(restored.value.body) { return None; }
      var backedUp := ReadEvents(Reader(env.codec, env.repo), b.log);
      if !backedUp.LogOk? || backedUp.partial { return None; }
      var probe := restored.value.(body := p.probe(restored.value.body));
      if ValidateConsistency(env, probe, backedUp.events) != Fine { return None; }
      return Some(restored.value);
    }

    /** Stages the repaired files, announces them in the journal, completes it and recovers. */
    method RestoreBackup(p: Repair<C>, f: Fresh, dir: string) returns (out: Outcome<C>)
      modifies this
      ensures var plan := RestorePlan(env, p, f, old(Disk()), dir);
              View() == Exec(old(View()), plan.writes) && (alive ==> out == plan.outcome)
    {
      ghost var m := View();
      ExecConcat(m, [], []);
      var plan := PreviewRestore(p, dir);
      if plan.None? { return Refused; }
      var repaired := Repaired(env, p, f, plan.value);
      if repaired.None? { return Refused; }
      var next := repaired.value;
      var lines := backups[dir].log + Line(env, RepairedEvent(env, f, next.revision, dir));
      var j := Journal(env.repo, f.backupDir, next, lines, None);
      ExecThree(m, StageState(j.backup, next), StageLog(j.backup, lines), PutJournal(j));
      ExecConcat(m, StageWrites(j), RecoverPlan(env, f, ApplyAll(m.files, StageWrites(j))).writes);
      var ok := Do(StageState(j.backup, next));
      if !ok { return Refused; }
      ok := Do(StageLog(j.backup, lines));
      if !ok { return Refused; }
      ok := Do(PutJournal(j));
      if !ok { return Refused; }
      out := Recover(f);
    }
  }
}
