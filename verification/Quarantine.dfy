/**
 The two repairs that recovery makes outside the redo: recording a truncated log
 tail, and setting unreadable files aside.
 */
module Quarantine {
  import opened Wrappers
  import opened EventLog
  import opened Disk
  import opened Recovery
  import opened Atomicity
  import opened Durability
  import opened Update
  import opened Restore

  // ---------------------------------------------------------------- the torn tail

  /** A valid snapshot that agrees with the complete lines of a log with a torn tail. */
  ghost predicate TornTail<C(!new)>(env: Env<C>, d: Files<C>) {
    && d.journal.Absent? && d.txn.Absent? && d.state.Present? && Acceptable(env, d.state.value)
    && Read(env, d).LogOk? && Read(env, d).partial
    && Contiguous(d.state.value.revision, Read(env, d).events)
  }

  /** The repair is an update that changes no contents. */
  function RepairRequest<C(!new)>(env: Env<C>, at: nat): Request<C> {
    Request(0, "", body => Some(Edited(body, "event_log_tail_truncated", env.note(TailCut(at)))))
  }

  /** The transaction that records a cut at the end of the complete lines. */
  ghost function RepairTxn<C(!new)>(env: Env<C>, f: Fresh, d: Files<C>): Option<Txn<C>>
    requires TornTail(env, d)
  {
    NextTxn(env, f, d.state.value, RepairRequest(env, Read(env, d).validBytes))
  }

  ghost function WithoutTail<C(!new)>(env: Env<C>, d: Files<C>): Files<C>
    requires Read(env, d).LogOk?
  {
    d.(log := Kept(env, d))
  }

  lemma TailSettles<C(!new)>(env: Env<C>, d: Files<C>)
    requires TornTail(env, d)
    ensures Settled(env, WithoutTail(env, d)) && Apply(d, Truncate(Read(env, d).validBytes)) == WithoutTail(env, d)
  {
    CutReads(env, d);
  }

  /** Recovery truncates the tail and commits the repair, or refuses when the repaired snapshot is invalid. */
  lemma RepairShape<C(!new)>(env: Env<C>, f: Fresh, d: Files<C>)
    requires env.Sound() && TornTail(env, d)
    ensures var cut, t := Truncate(Read(env, d).validBytes), RepairTxn(env, f, d);
            RecoverPlan(env, f, d) ==
            if t.Some? then Plan([cut] + CommitWrites(env, t.value), Recovered(t.value.snapshot))
            else Plan([cut], Refused)
  {
    hide RepairPlan, QuarantinePlan, ConsistencyPlan, RepairTxn, Parse, NextTxn, Settled;
    var cut := Truncate(Read(env, d).validBytes);
    TailSettles(env, d);
    LoadAccepted(env, d);
    TailRecorded(env, f, d);
    assert RepairPlan(env, f, Apply(d, cut), d.state.value).After([cut]).writes
           == [cut] + RepairPlan(env, f, Apply(d, cut), d.state.value).writes;
    assert ApplyAll(d, []) == d;
  }

  lemma TailRecorded<C(!new)>(env: Env<C>, f: Fresh, d: Files<C>)
    requires env.Sound() && TornTail(env, d)
    ensures var t := RepairTxn(env, f, d);
            RepairPlan(env, f, WithoutTail(env, d), d.state.value) ==
            if t.Some? then Plan(CommitWrites(env, t.value), Recovered(t.value.snapshot)) else Plan([], Refused)
  {
    hide Settled, Parse, QuarantinePlan;
    var d1, request := WithoutTail(env, d), RepairRequest(env, Read(env, d).validBytes);
    var t := RepairTxn(env, f, d);
    TailSettles(env, d);
    if t.Some? {
      CommitEnds(env, f, d1, request);
      CommittedAgrees(env, f, d1, request);
      assert CommitWrites(env, t.value) + [] == CommitWrites(env, t.value);
    }
  }

  lemma CommittedAgrees<C(!new)>(env: Env<C>, f: Fresh, d: Files<C>, r: Request<C>)
    requires env.Sound() && Settled(env, d) && NextTxn(env, f, Current(env, f, d), r).Some?
    ensures var t := NextTxn(env, f, Current(env, f, d), r).value;
            var log := Read(env, Committed(env, d, t));
            log.LogOk? && ValidateConsistency(env, t.snapshot, log.events) == Fine
  {
    hide NextTxn, Parse, Contiguous;
    var t := NextTxn(env, f, Current(env, f, d), r).value;
    CommitEnds(env, f, d, r);
    SequenceAccepted(t.snapshot.revision, Read(env, Committed(env, d, t)).events);
  }

  /** Every crash in a tail repair leaves the torn directory itself, the directory without its tail, or the
      directory with exactly one more event and one more revision; in the gap of the commit it strands. */
  lemma RepairAtomic<C(!new)>(env: Env<C>, f: Fresh, d: Files<C>, k: nat, torn: nat)
    requires env.Sound() && TornTail(env, d) && RepairTxn(env, f, d).Some?
    ensures var t := RepairTxn(env, f, d).value;
            var cut, d' := WithoutTail(env, d), CrashAt(d, RecoverPlan(env, f, d).writes, k, torn);
            && (k == 0 ==> d' == d)
            && (k > 0 ==> Lands(env, CommitGap(env, t, k - 1, torn), if k == 1 then cut
                  else Committed(env, cut, t), d'))
            && t.snapshot == d.state.value.(revision := d.state.value.revision + 1, updatedAt := f.now)
            && Read(env, Committed(env, cut, t)).LogOk?
            && Read(env, Committed(env, cut, t)).events == Read(env, d).events + [t.event]
  {
    hide Denotes, Stranded, Settled, Contiguous, RecoverPlan, RepairTxn;
    var t := RepairTxn(env, f, d).value;
    var cut: Write<C> := Truncate(Read(env, d).validBytes);
    var d1, commit := WithoutTail(env, d), CommitWrites(env, t);
    RepairShape(env, f, d);
    RepairCommit(env, f, d);
    if k > 0 {
      CrashAfter(d, cut, commit, k, torn);
      RepairCrash(env, f, d, k - 1, torn);
    }
  }

  lemma RepairCommit<C(!new)>(env: Env<C>, f: Fresh, d: Files<C>)
    requires env.Sound() && TornTail(env, d) && RepairTxn(env, f, d).Some?
    ensures var t, cut := RepairTxn(env, f, d).value, WithoutTail(env, d);
            && Apply(d, Truncate(Read(env, d).validBytes)) == cut
            && t.snapshot == d.state.value.(revision := d.state.value.revision + 1, updatedAt := f.now)
            && Read(env, Committed(env, cut, t)).LogOk?
            && Read(env, Committed(env, cut, t)).events == Read(env, d).events + [t.event]
  {
    hide Settled, Contiguous;
    TailSettles(env, d);
    CutReads(env, d);
    CommitAddsOne(env, f, WithoutTail(env, d), RepairRequest(env, Read(env, d).validBytes));
  }

  lemma RepairCrash<C(!new)>(env: Env<C>, f: Fresh, d: Files<C>, k: nat, torn: nat)
    requires env.Sound() && TornTail(env, d) && RepairTxn(env, f, d).Some?
    ensures var t, cut := RepairTxn(env, f, d).value, WithoutTail(env, d);
            Lands(env, CommitGap(env, t, k, torn), if k == 0 then cut else Committed(env, cut, t),
                  CrashAt(cut, CommitWrites(env, t), k, torn))
  {
    hide Denotes, Stranded, Settled, Contiguous, NextTxn;
    var t, cut := RepairTxn(env, f, d).value, WithoutTail(env, d);
    var commit := CommitWrites(env, t);
    TailSettles(env, d);
    assert commit == [PutTxn(Filed(env, t))] + commit[1..];
    if k > 0 {
      CommitCrashes(env, f, cut, RepairRequest(env, Read(env, d).validBytes), k, torn);
      CrashAfter(cut, PutTxn(Filed(env, t)), commit[1..], k, torn);
    } else {
      TailSettled(env, cut);
      UnjournalledDenotes(env, cut, cut);
    }
  }

  lemma TailSettled<C(!new)>(env: Env<C>, d: Files<C>)
    requires Settled(env, d)
    ensures Means(env, d)(d)
  {
  }

  // ---------------------------------------------------------------- quarantine

  /** Every original file is still in place or already in the backup; all else is untouched. */
  ghost function Conserves<C(!new)>(was: Files<C>, dir: string): Files<C> -> bool {
    (d: Files<C>) =>
      && (d.state == was.state || BackupAt(d, dir).state == was.state)
      && (d.log == was.log || BackupAt(d, dir).log == was.log)
      && (d.txn == was.txn || BackupAt(d, dir).txn == was.txn)
      && d.journal == was.journal && d.backups - {dir} == was.backups - {dir}
  }

  lemma KeepsOne<C(!new)>(good: Files<C> -> bool, d: Files<C>, w: Write<C>)
    requires good(d) && good(Apply(d, w)) && !w.Append?
    ensures Keeps(good, d, [w])
    ensures ApplyAll(d, [w]) == Apply(d, w)
  {
    ApplyFew(d, w, w);
    assert [w][1..] == [];
    assert Keeps(good, Apply(d, w), []);
  }

  ghost function StateAside<C>(d: Files<C>, dir: string): Files<C> {
    if d.state.Absent? then d else Apply(d, SetAsideState(dir))
  }

  ghost function LogAside<C>(d: Files<C>, dir: string): Files<C> {
    if d.log == [] then d else Apply(d, SetAsideLog(dir))
  }

  ghost function TxnAside<C>(d: Files<C>, dir: string): Files<C> {
    if d.txn.Absent? then d else Apply(d, SetAsideTxn(dir))
  }

  /** The three moves, one after the other. */
  ghost function Aside<C>(d: Files<C>, dir: string): Files<C> {
    TxnAside(LogAside(StateAside(d, dir), dir), dir)
  }

  lemma AsideMoves<C(!new)>(d: Files<C>, dir: string)
    requires dir !in d.backups
    ensures var d1, d2, d3 := StateAside(d, dir), LogAside(StateAside(d, dir), dir), Aside(d, dir);
            && BackupAt(d1, dir) == Backup(d.state, [], Absent)
               && d1 == Files(Absent, d.txn, d.log, d.journal, d1.backups)
            && BackupAt(d2, dir) == Backup(d.state, d.log, Absent)
               && d2 == Files(Absent, d.txn, [], d.journal, d2.backups)
            && BackupAt(d3, dir) == Backup(d.state, d.log, d.txn)
               && d3 == Files(Absent, Absent, [], d.journal, d3.backups)
            && d1.backups - {dir} == d2.backups - {dir} == d3.backups - {dir} == d.backups - {dir}
  {
  }

  lemma AsideKeeps<C(!new)>(d: Files<C>, dir: string)
    requires dir !in d.backups
    ensures Keeps(Conserves(d, dir), d, SetAside(d, dir))
    ensures ApplyAll(d, SetAside(d, dir)) == Aside(d, dir)
  {
    var good := Conserves(d, dir);
    AsideMoves(d, dir);
    var d1, d2 := StateAside(d, dir), LogAside(StateAside(d, dir), dir);
    var a: seq<Write<C>> := if d.state.Absent? then [] else [SetAsideState(dir)];
    var b: seq<Write<C>> := if d.log == [] then [] else [SetAsideLog(dir)];
    var c: seq<Write<C>> := if d.txn.Absent? then [] else [SetAsideTxn(dir)];
    MoveKeeps(good, d, a);
    MoveKeeps(good, d1, b);
    MoveKeeps(good, d2, c);
    KeepsConcat(good, d, a, b);
    ApplyConcat(d, a, b);
    KeepsConcat(good, d, a + b, c);
    ApplyConcat(d, a + b, c);
  }

  lemma MoveKeeps<C(!new)>(good: Files<C> -> bool, d: Files<C>, ws: seq<Write<C>>)
    requires |ws| <= 1 && good(d) && (ws != [] ==> good(Apply(d, ws[0])) && !ws[0].Append?)
    ensures Keeps(good, d, ws) && ApplyAll(d, ws) == if ws == [] then d else Apply(d, ws[0])
  {
    if ws != [] {
      assert ws == [ws[0]];
      KeepsOne(good, d, ws[0]);
    }
  }

  /** Once the files are aside the marker touches only the live state and log. */
  lemma MarkerKeeps<C(!new)>(env: Env<C>, f: Fresh, d: Files<C>)
    requires f.backupDir !in d.backups
    ensures Keeps(Conserves(d, f.backupDir), Aside(d, f.backupDir), MarkerWrites(env, f))
  {
    var good, d1 := Conserves(d, f.backupDir), Aside(d, f.backupDir);
    var line, put := Line(env, MarkerEvent(env, f)), PutState(MarkerSnapshot(env, f));
    AsideMoves(d, f.backupDir);
    forall n: nat ensures good(Torn(d1, Append(line), n)) {
      assert BackupAt(Torn(d1, Append(line), n), f.backupDir) == BackupAt(d1, f.backupDir);
    }
    var d2 := Apply(d1, Append(line));
    assert BackupAt(d2, f.backupDir) == BackupAt(d1, f.backupDir) == BackupAt(Apply(d2, put), f.backupDir);
    KeepsOne(good, d2, put);
    assert MarkerWrites(env, f)[1..] == [put];
  }

  /** A quarantine loses nothing at any crash point: each of the three files is where it was
      or in the backup, and other backups are untouched. */
  lemma QuarantineConserves<C(!new)>(env: Env<C>, f: Fresh, d: Files<C>, k: nat, torn: nat)
    requires f.backupDir !in d.backups
    ensures Conserves(d, f.backupDir)(CrashAt(d, QuarantinePlan(env, f, d).writes, k, torn))
  {
    var good, aside := Conserves(d, f.backupDir), SetAside(d, f.backupDir);
    AsideKeeps(d, f.backupDir);
    MarkerKeeps(env, f, d);
    KeepsConcat(good, d, aside, MarkerWrites(env, f));
    KeepsCrash(good, d, QuarantinePlan(env, f, d).writes, k, torn);
  }

  /** The directory a complete quarantine leaves. */
  ghost function QuarantinedFiles<C(!new)>(env: Env<C>, f: Fresh, d: Files<C>): Files<C> {
    Aside(d, f.backupDir).(log := Line(env, MarkerEvent(env, f)), state := Present(MarkerSnapshot(env, f)))
  }

  lemma QuarantineEnds<C(!new)>(env: Env<C>, f: Fresh, d: Files<C>)
    requires f.backupDir !in d.backups && MarkerValid(env, f)
    ensures ApplyAll(d, QuarantinePlan(env, f, d).writes) == QuarantinedFiles(env, f, d)
  {
    AsideKeeps(d, f.backupDir);
    AsideMoves(d, f.backupDir);
    var d1, line := Aside(d, f.backupDir), Line(env, MarkerEvent(env, f));
    ApplyConcat(d, SetAside(d, f.backupDir), MarkerWrites(env, f));
    ApplyFew(d1, Append(line), PutState(MarkerSnapshot(env, f)));
    assert [] + line == line;
  }

  /** A directory holding just the marker is settled. */
  lemma MarkerSettles<C(!new)>(env: Env<C>, f: Fresh, q: Files<C>)
    requires env.Sound() && MarkerValid(env, f)
    requires q.txn.Absent? && q.log == Line(env, MarkerEvent(env, f)) && q.state == Present(MarkerSnapshot(env, f))
    ensures Read(env, q) == LogOk([MarkerEvent(env, f)], |q.log|, false) && Settled(env, q)
  {
    ParseLine(env.codec, env.repo, MarkerEvent(env, f));
  }

  lemma BlockedRefuses<C(!new)>(env: Env<C>, q: Files<C>, g: Fresh, r: Request<C>, rotate: bool)
    requires env.Sound() && Settled(env, q) && q.journal.Absent? && q.state.Present? && q.state.value.blocked
    ensures UpdatePlan(env, g, q, r, rotate) == Plan([], Refused)
  {
    UnjournalledDenotes(env, q, q);
    RefusalKeeps(env, g, q, r, rotate, 0, 0);
    assert RecoverWrites(env, q) == [];
  }

  /** After a quarantine every update is refused and writes nothing, until a restore. */
  lemma QuarantineBlocks<C(!new)>(env: Env<C>, f: Fresh, d: Files<C>, g: Fresh, r: Request<C>, rotate: bool)
    requires env.Sound() && MarkerValid(env, f) && d.journal.Absent? && f.backupDir !in d.backups
    ensures UpdatePlan(env, g, ApplyAll(d, QuarantinePlan(env, f, d).writes), r, rotate) == Plan([], Refused)
  {
    QuarantineEnds(env, f, d);
    AsideMoves(d, f.backupDir);
    MarkerSettles(env, f, QuarantinedFiles(env, f, d));
    BlockedRefuses(env, QuarantinedFiles(env, f, d), g, r, rotate);
  }

  /** Recovery of a directory that has a readable log and no other file. */
  lemma LogAlone<C(!new)>(env: Env<C>, g: Fresh, d: Files<C>)
    requires d.state.Absent? && d.txn.Absent? && d.journal.Absent?
    requires Read(env, d).LogOk? && (d.log != [] ==> Read(env, d).events != [] || Read(env, d).partial)
    ensures RecoverPlan(env, g, d).outcome.Recovered? <==> d.log == []
    ensures d.log == [] ==> RecoverPlan(env, g, d) == Plan([], Recovered(env.EmptySnapshot(g.now)))
  {
    assert ApplyAll(d, []) == d;
    QuarantineNeverRecovers(env, g, d);
  }

  /** The one window: stopped after the moves and before any byte of the marker reached the log,
      the directory looks fresh.  Stopped later, while the state is not written, it is quarantined again. */
  lemma QuarantineWindow<C(!new)>(env: Env<C>, f: Fresh, d: Files<C>, g: Fresh, k: nat, torn: nat)
    requires env.Sound() && MarkerValid(env, f) && d.journal.Absent? && f.backupDir !in d.backups
    requires |SetAside(d, f.backupDir)| <= k <= |SetAside(d, f.backupDir)| + 1
    ensures var d' := CrashAt(d, QuarantinePlan(env, f, d).writes, k, torn);
            && (RecoverPlan(env, g, d').outcome.Recovered? <==> d'.log == [])
            && (d'.log == [] ==> RecoverPlan(env, g, d') == Plan([], Recovered(env.EmptySnapshot(g.now))))
  {
    var aside, d1 := SetAside(d, f.backupDir), Aside(d, f.backupDir);
    AsideKeeps(d, f.backupDir);
    AsideMoves(d, f.backupDir);
    MarkerCrash(env, f, d1, k - |aside|, torn);
    CrashConcat(d, aside, MarkerWrites(env, f), k, torn);
    LogAlone(env, g, CrashAt(d1, MarkerWrites(env, f), k - |aside|, torn));
  }

  lemma MarkerCrash<C(!new)>(env: Env<C>, f: Fresh, d: Files<C>, k: nat, torn: nat)
    requires env.Sound() && d.log == [] && k <= 1
    ensures var d' := CrashAt(d, MarkerWrites(env, f), k, torn);
            && d' == d.(log := d'.log)
            && Read(env, d').LogOk?
            && (d'.log != [] ==> Read(env, d').events != [] || Read(env, d').partial)
  {
    var e := MarkerEvent(env, f);
    var line, put := Line(env, e), PutState(MarkerSnapshot(env, f));
    assert MarkerWrites(env, f)[1..] == [put];
    assert Read(env, d) == LogOk([], 0, false);
    if k == 0 && torn < |line| {
      TornReads(env, d, e, torn);
    } else if k == 0 && torn == |line| {
      assert line[..torn] == line;
      AppendReads(env, d, e);
    } else if k == 1 {
      AppendReads(env, d, e);
    }
  }

  /** What the quarantine set aside can be restored exactly when the files could have been before it. */
  lemma RestoreOffered<C(!new)>(env: Env<C>, p: Repair<C>, f: Fresh, d: Files<C>)
    requires env.Sound() && MarkerValid(env, f) && d.journal.Absent? && f.backupDir !in d.backups
    ensures var q := QuarantinedFiles(env, f, d);
            && BackupAt(q, f.backupDir) == Backup(d.state, d.log, d.txn) && q.txn.Absent? && q.journal.Absent?
            && PlanRestore(env, p, q, f.backupDir) == PlanFiles(env, p, d)
  {
    hide PlanFiles, IsMarker;
    var q := QuarantinedFiles(env, f, d);
    AsideMoves(d, f.backupDir);
    MarkerIsExact(env, f, q);
    SamePlan(env, p, d);
  }

  lemma SamePlan<C(!new)>(env: Env<C>, p: Repair<C>, d: Files<C>)
    ensures d.state.Absent? ==> PlanFiles(env, p, d).None?
    ensures PlanFiles(env, p, BackupStore(Backup(d.state, d.log, d.txn))) == PlanFiles(env, p, d)
  {
    var b := BackupStore(Backup(d.state, d.log, d.txn));
    assert Read(env, b) == Read(env, d) && LoadState(env, b) == LoadState(env, d);
  }

  /** A stranded directory cannot be restored: its backup holds the transaction. */
  lemma StrandedForGood<C(!new)>(env: Env<C>, p: Repair<C>, f: Fresh, g: Fresh, d: Files<C>)
    requires env.Sound() && Stranded(env, d) && MarkerValid(env, f) && f.backupDir !in d.backups
    ensures var q := ApplyAll(d, RecoverPlan(env, f, d).writes);
            && StagedJournal(env, p, g, q, f.backupDir).None?
            && RestorePlan(env, p, g, q, f.backupDir) == Plan([], Refused)
  {
    hide *;
    StrandedFiles(env, d);
    var cut: seq<Write<C>> := Cut(Read(env, d));
    var d1 := ApplyAll(d, cut);
    StrandedPlan(env, f, d);
    PlannedAfter(QuarantinePlan(env, f, d1), cut);
    ApplyConcat(d, cut, QuarantinePlan(env, f, d1).writes);
    QuarantineEnds(env, f, d1);
    RestoreOffered(env, p, f, d1);
    PendingIsNotRestored(env, p, g, d1, QuarantinedFiles(env, f, d1), f.backupDir);
  }

  lemma StrandedFiles<C(!new)>(env: Env<C>, d: Files<C>)
    requires Stranded(env, d)
    ensures Read(env, d).LogOk?
    ensures var d1 := ApplyAll(d, Cut<C>(Read(env, d)));
            d1.journal.Absent? && d1.txn.Present? && d1.backups == d.backups
  {
    ApplyFew(d, Truncate(Read(env, d).validBytes), DropTxn);
  }

  lemma PlannedAfter<C(!new)>(plan: Plan<C>, before: seq<Write<C>>)
    ensures plan.After(before).writes == before + plan.writes
  {
  }

  lemma PendingIsNotRestored<C(!new)>(env: Env<C>, p: Repair<C>, g: Fresh, d: Files<C>, q: Files<C>, dir: string)
    requires d.txn.Present? && PlanRestore(env, p, q, dir) == PlanFiles(env, p, d)
    ensures StagedJournal(env, p, g, q, dir).None? && RestorePlan(env, p, g, q, dir) == Plan([], Refused)
  {
    hide PlanRestore, Parse;
  }

  /** Quarantine and restore together: with identities that repair the snapshot, any crash after the journal
      was written and any interrupted recoveries end in the repaired snapshot one revision up and the old log
      with one more event, and the backup still holds the old files. */
  lemma QuarantineThenRestore<C(!new)>(
      env: Env<C>, p: Repair<C>, f: Fresh, g: Fresh, d: Files<C>, k: nat, torn: nat, crashes: seq<Crash>)
    requires env.Sound() && MarkerValid(env, f) && d.journal.Absent? && f.backupDir !in d.backups
    requires LacksIdentities(env, p, d)
    requires var body := env.normalize(d.state.value).body;
             p.apply(body).Some? && env.validate(env.normalize(d.state.value).(body := p.apply(body).value)) == Fine
    requires k >= 3 && g.backupDir != f.backupDir
    ensures var q, was := ApplyAll(d, QuarantinePlan(env, f, d).writes), env.normalize(d.state.value);
            var d' := Interrupted(env, CrashAt(q, RestorePlan(env, p, g, q, f.backupDir).writes, k, torn), crashes);
            && Durable(env, d') && Target(env, d').state.Present?
            && Confirmed(env, p, g, was, Target(env, d').state.value)
            && TellsRestore(env, g, f.backupDir, was.revision + 1, Read(env, d), Read(env, Target(env, d')))
            && BackupAt(Target(env, d'), f.backupDir) == Backup(d.state, d.log, d.txn)
  {
    hide *;
    var q := QuarantinedFiles(env, f, d);
    QuarantineEnds(env, f, d);
    RestoreOffered(env, p, f, d);
    FilesPlanExactly(env, p, d);
    OfferedJournal(env, p, g, q, f.backupDir);
    BackupReads(env, q, f.backupDir, d);
    RestoreRedoSafe(env, p, g, q, f.backupDir, k, torn, crashes);
    RestoredKeepsBackup(q, StagedJournal(env, p, g, q, f.backupDir).value, f.backupDir);
  }

  lemma BackupReads<C(!new)>(env: Env<C>, q: Files<C>, dir: string, d: Files<C>)
    requires dir in q.backups && BackupAt(q, dir) == Backup(d.state, d.log, d.txn)
    ensures Read(env, BackupStore(q.backups[dir])) == Read(env, d)
  {
  }

  lemma OfferedJournal<C(!new)>(env: Env<C>, p: Repair<C>, g: Fresh, q: Files<C>, dir: string)
    requires PlanRestore(env, p, q, dir).Some?
    requires var s := PlanRestore(env, p, q, dir).value;
             p.apply(s.body).Some? && env.validate(s.(body := p.apply(s.body).value)) == Fine
    ensures var j := StagedJournal(env, p, g, q, dir); j.Some? && j.value.backup == g.backupDir && dir in q.backups
  {
    hide PlanFiles, IsMarker, RestoredLog;
  }

  lemma RestoredKeepsBackup<C>(q: Files<C>, j: Journal<C>, dir: string)
    requires j.backup != dir
    ensures RestoredFiles(q, j).state == Present(j.state) && RestoredFiles(q, j).log == j.log
    ensures BackupAt(RestoredFiles(q, j), dir) == BackupAt(q, dir)
  {
  }

  lemma MarkerIsExact<C(!new)>(env: Env<C>, f: Fresh, q: Files<C>)
    requires env.Sound() && MarkerValid(env, f) && q.journal.Absent?
    requires q.txn.Absent? && q.log == Line(env, MarkerEvent(env, f)) && q.state == Present(MarkerSnapshot(env, f))
    ensures IsMarker(env, q, f.backupDir)
  {
    MarkerSettles(env, f, q);
    LoadAccepted(env, q);
    SequenceAccepted(1, [MarkerEvent(env, f)]);
  }

  /** The converse of the validator's soundness: it accepts what recovery settles. */
  lemma RecoverableAccepted<C(!new)>(env: Env<C>, d: Files<C>)
    requires env.Sound() && Recoverable(env, d) && d.state.Present? && !Read(env, d).partial
    ensures LoadState(env, d) == d.state && LoadTxn(env, d) == d.txn
    ensures ValidatePrepared(env, d.state.value, Read(env, d).events, LoadedTxn(env, d))
            == Some(Redo(env, d).state.value)
  {
    LoadAccepted(env, d);
    var events := Read(env, d).events;
    if Prepared(env, d) {
      var t := d.txn.value;
      LoadPrepared(env, d);
      RecordedIsLast(events, t.event);
      SequenceAccepted(t.snapshot.revision, Redone(events, t.event));
    } else {
      SequenceAccepted(d.state.value.revision, events);
    }
  }
}
