/**
 Operator-confirmed restore of a quarantined directory whose completed Issues lack the
 identity of their merged pull request: the plan computed in memory, the staged files,
 the journal that makes them durable, and its completion by recovery.
 */
module Restore {
  import opened Wrappers
  import opened EventLog
  import opened Disk
  import opened Recovery
  import opened Atomicity
  import opened Durability

  // ---------------------------------------------------------------- the in-memory validator against recovery

  /** The transaction a store loads, when it loads one at all. */
  function LoadedTxn<C(!new)>(env: Env<C>, d: Files<C>): Option<Txn<C>> {
    if LoadTxn(env, d).Present? then Some(LoadTxn(env, d).value) else None
  }

  /** The directory loads, its log is untorn, and no restore is pending. */
  ghost predicate Loads<C(!new)>(env: Env<C>, d: Files<C>) {
    && d.journal.Absent? && LoadState(env, d).Present?
    && Read(env, d).LogOk? && !Read(env, d).partial
    && (LoadTxn(env, d).Present? || LoadTxn(env, d).Absent?)
  }

  ghost predicate Agree<C(!new)>(accepted: Option<Snapshot<C>>, outcome: Outcome<C>) {
    if accepted.Some? then outcome == Recovered(accepted.value) else !outcome.Recovered?
  }

  lemma QuarantineNeverRecovers<C(!new)>(env: Env<C>, f: Fresh, d: Files<C>)
    ensures !QuarantinePlan(env, f, d).outcome.Recovered?
  {
  }

  lemma ConsistencyAgrees<C(!new)>(env: Env<C>, f: Fresh, d: Files<C>, s: Snapshot<C>)
    requires Read(env, d).LogOk?
    ensures var ok := ValidateConsistency(env, s, Read(env, d).events) == Fine;
            Agree(if ok then Some(s) else None, ConsistencyPlan(env, f, d, s).outcome)
  {
    QuarantineNeverRecovers(env, f, d);
  }

  lemma AdvanceAgrees<C(!new)>(env: Env<C>, f: Fresh, d: Files<C>, loaded: Snapshot<C>, t: Txn<C>)
    requires Read(env, d).LogOk? && !Read(env, d).partial
    ensures var final := if loaded.revision == t.snapshot.revision then loaded else t.snapshot;
            var ok := && loaded.revision <= t.snapshot.revision
                      && (loaded.revision == t.snapshot.revision ==> loaded == t.snapshot)
                      && ValidateConsistency(env, final, Read(env, d).events) == Fine;
            Agree(if ok then Some(final) else None, AdvancePlan(env, f, d, Present(loaded), t).outcome)
  {
    QuarantineNeverRecovers(env, f, d);
    var dropped := Apply(d, DropTxn);
    ConsistencyAgrees(env, f, dropped, loaded);
    ApplyFew(d, PutState(t.snapshot), DropTxn);
    ConsistencyAgrees(env, f, ApplyAll(d, [PutState(t.snapshot), DropTxn]), t.snapshot);
  }

  lemma WholeAgrees<C(!new)>(env: Env<C>, f: Fresh, d: Files<C>, loaded: Snapshot<C>, t: Txn<C>)
    requires env.codec.Faithful() && Read(env, d).LogOk? && !Read(env, d).partial
    requires ValidateTxn(env, t) == Fine
    ensures Agree(ValidatePrepared(env, loaded, Read(env, d).events, Some(t)),
                  WholePlan(env, f, d, Read(env, d).events, Present(loaded), t).outcome)
  {
    var events := Read(env, d).events;
    var last := LastSequence(events);
    QuarantineNeverRecovers(env, f, d);
    if last == t.event.sequence {
      AdvanceAgrees(env, f, d, loaded, t);
    } else if last + 1 == t.event.sequence {
      AppendReads(env, d, t.event);
      SpellingDoesNotMatter(env, t.snapshot.revision, events, t.event);
      AdvanceAgrees(env, f, Apply(d, Append(Line(env, t.event))), loaded, t);
    }
  }

  /** The sequence validator does not look at payloads. */
  lemma SpellingDoesNotMatter<C(!new)>(env: Env<C>, revision: nat, events: seq<Event>, e: Event)
    ensures ValidateSequence(revision, events + [e]) == Fine
            <==> ValidateSequence(revision, events + [env.codec.Compacted(e)]) == Fine
  {
    var was, all := events + [e], events + [env.codec.Compacted(e)];
    SequenceAccepted(revision, was);
    SequenceAccepted(revision, all);
    assert forall i :: 0 <= i < |all| ==>
             all[i].sequence == was[i].sequence && all[i].version == was[i].version && all[i].kind == was[i].kind;
  }

  /** The in-memory validator accepts a directory exactly when recovery of it succeeds
      without quarantine, and then both arrive at the same snapshot. */
  lemma PreparedAgreement<C(!new)>(env: Env<C>, f: Fresh, d: Files<C>)
    requires env.codec.Faithful() && Loads(env, d)
    ensures Agree(ValidatePrepared(env, LoadState(env, d).value, Read(env, d).events, LoadedTxn(env, d)),
                  RecoverPlan(env, f, d).outcome)
  {
    var s := LoadState(env, d).value;
    assert ApplyAll(d, []) == d;
    if LoadTxn(env, d).Present? {
      var t := LoadTxn(env, d).value;
      QuarantineNeverRecovers(env, f, d);
      if ValidateTxn(env, t) == Fine { WholeAgrees(env, f, d, s, t); }
    } else {
      ConsistencyAgrees(env, f, d, s);
    }
  }

  // ---------------------------------------------------------------- the restore plan

  /** A backup directory seen as a store of its own. */
  function BackupStore<C>(b: Backup<C>): Files<C> {
    Files(b.state, b.txn, b.log, Absent, map[])
  }

  /**
   What the restore is given about contents: which it accepts, what they look like once the missing
   identities are filled in with anything, and what the operator's identities make of them, if they
   match the missing ones exactly.
   */
  datatype Repair<!C> = Repair(eligible: C -> bool, probe: C -> C, apply: C -> Option<C>)

  /** The live directory is the marker that a quarantine into `dir` left. */
  ghost predicate IsMarker<C(!new)>(env: Env<C>, d: Files<C>, dir: string) {
    && LoadState(env, d).Present? && Read(env, d).LogOk? && !Read(env, d).partial
    && var s, events := LoadState(env, d).value, Read(env, d).events;
    && s.blocked && s.revision == 1 && s.body == env.marker(dir)
    && |events| == 1 && events[0].kind == "recovery_blocked"
    && ValidateConsistency(env, s, events) == Fine
  }

  /** The snapshot of a directory whose files can be restored, unless the plan refuses it: the files load, no
      transaction is pending, and nothing but the missing identities is wrong with them. */
  ghost function PlanFiles<C(!new)>(env: Env<C>, p: Repair<C>, b: Files<C>): Option<Snapshot<C>> {
    var loaded, log := LoadState(env, b), Read(env, b);
    if !loaded.Present? || !b.txn.Absent? || !p.eligible(loaded.value.body) then None
    else if !log.LogOk? || log.partial then None
    else if ValidateConsistency(env, loaded.value.(body := p.probe(loaded.value.body)), log.events) != Fine then None
    else Some(loaded.value)
  }

  /** What an operator is asked to confirm, computed without touching a file: the backed-up snapshot. */
  ghost function PlanRestore<C(!new)>(env: Env<C>, p: Repair<C>, d: Files<C>, dir: string): Option<Snapshot<C>> {
    if !IsMarker(env, d, dir) || dir !in d.backups then None else PlanFiles(env, p, BackupStore(d.backups[dir]))
  }

  /** The snapshot with the operator's identities, one revision up, unless it is still not valid. */
  function Repaired<C(!new)>(env: Env<C>, p: Repair<C>, f: Fresh, s: Snapshot<C>): Option<Snapshot<C>> {
    match p.apply(s.body)
    case None => None
    case Some(body) =>
      if env.validate(s.(body := body)) != Fine then None else Some(Stamped(s.(body := body), s.revision + 1, f.now))
  }

  function RepairedEvent<C(!new)>(env: Env<C>, f: Fresh, revision: nat, dir: string): Event {
    Event(CURRENT_VERSION, f.eventId, revision, f.now, env.repo, 0, "", "legacy_merged_identity_quarantine_recovered",
          env.Payload(RepairedFrom(dir)))
  }

  /** The journal of a restore: the repaired snapshot, one revision up, and the backed-up log with one more
      event; nothing when the plan or the repair is refused. */
  ghost function StagedJournal<C(!new)>(
      env: Env<C>, p: Repair<C>, f: Fresh, d: Files<C>, dir: string): Option<Journal<C>>
  {
    match PlanRestore(env, p, d, dir)
    case None => None
    case Some(s) =>
      match Repaired(env, p, f, s)
      case None => None
      case Some(next) =>
        Some(Journal(env.repo, f.backupDir, next, RestoredLog(env, f, d.backups[dir].log, next.revision, dir), None))
  }

  /** The log with the event that records the restore. */
  function RestoredLog<C(!new)>(env: Env<C>, f: Fresh, log: seq<Byte>, revision: nat, dir: string): seq<Byte> {
    log + Line(env, RepairedEvent(env, f, revision, dir))
  }

  function StageWrites<C>(j: Journal<C>): seq<Write<C>> {
    [StageState(j.backup, j.state), StageLog(j.backup, j.log), PutJournal(j)]
  }

  /** The restore: stage both files, announce them in the journal, then recover. */
  ghost function RestorePlan<C(!new)>(env: Env<C>, p: Repair<C>, f: Fresh, d: Files<C>, dir: string): Plan<C> {
    match StagedJournal(env, p, f, d, dir)
    case None => Plan([], Refused)
    case Some(j) => RecoverPlan(env, f, ApplyAll(d, StageWrites(j))).After(StageWrites(j))
  }

  // ---------------------------------------------------------------- what is announced and what is restored

  /** Only the marker is live: one blocked snapshot that names the backup, and one event. */
  ghost predicate OnlyMarker<C(!new)>(env: Env<C>, d: Files<C>, dir: string) {
    && d.state.Present? && d.state.value.version == CURRENT_VERSION && d.state.value.repoId == env.repo
    && var s, log := env.normalize(d.state.value), Read(env, d);
    && s.blocked && s.revision == 1 && s.body == env.marker(dir) && env.validate(s) == Fine
    && log.LogOk? && !log.partial && |log.events| == 1 && log.events[0].kind == "recovery_blocked"
    && Contiguous(1, log.events)
  }

  /** The backup holds an eligible snapshot whose log agrees with it and that only lacks identities. */
  ghost predicate LacksIdentities<C(!new)>(env: Env<C>, p: Repair<C>, b: Files<C>) {
    && b.txn.Absent? && b.state.Present?
    && b.state.value.version == CURRENT_VERSION && b.state.value.repoId == env.repo
    && var s, log := env.normalize(b.state.value), Read(env, b);
    && p.eligible(s.body) && env.validate(s.(body := p.probe(s.body))) == Fine
    && log.LogOk? && !log.partial && Contiguous(s.revision, log.events)
  }

  lemma FilesPlanExactly<C(!new)>(env: Env<C>, p: Repair<C>, b: Files<C>)
    ensures PlanFiles(env, p, b) ==
            if LacksIdentities(env, p, b) then Some(env.normalize(b.state.value)) else None
  {
    hide Parse;
    if b.state.Present? && Read(env, b).LogOk? {
      SequenceAccepted(env.normalize(b.state.value).revision, Read(env, b).events);
    }
  }

  lemma MarkerExactly<C(!new)>(env: Env<C>, d: Files<C>, dir: string)
    ensures IsMarker(env, d, dir) <==> OnlyMarker(env, d, dir)
  {
    hide Parse;
    if Read(env, d).LogOk? { SequenceAccepted(1, Read(env, d).events); }
  }

  /** What is announced, exactly: beside the marker, the backed-up snapshot that only lacks identities. */
  lemma PlanExactly<C(!new)>(env: Env<C>, p: Repair<C>, d: Files<C>, dir: string)
    ensures PlanRestore(env, p, d, dir).Some? <==>
            OnlyMarker(env, d, dir) && dir in d.backups && LacksIdentities(env, p, BackupStore(d.backups[dir]))
    ensures PlanRestore(env, p, d, dir).Some? ==>
              PlanRestore(env, p, d, dir).value == env.normalize(d.backups[dir].state.value)
  {
    hide IsMarker, PlanFiles, OnlyMarker, LacksIdentities;
    MarkerExactly(env, d, dir);
    if dir in d.backups { FilesPlanExactly(env, p, BackupStore(d.backups[dir])); }
  }

  /** The snapshot holds what the operator confirmed, and otherwise what was backed up, one revision up. */
  predicate Confirmed<C(==,!new)>(env: Env<C>, p: Repair<C>, f: Fresh, s: Snapshot<C>, next: Snapshot<C>) {
    && p.apply(s.body).Some? && next.body == p.apply(s.body).value
    && next.revision == s.revision + 1 && next.updatedAt == f.now
    && next.repoId == s.repoId && next.version == s.version && next.blocked == s.blocked
  }

  /** The log holds one more event, which tells which backup was restored. */
  ghost predicate TellsRestore<C(!new)>(
      env: Env<C>, f: Fresh, dir: string, revision: nat, was: LogRead, log: LogRead) {
    && was.LogOk? && log.LogOk? && !log.partial && |log.events| == |was.events| + 1
    && log.events[..|was.events|] == was.events
    && var e := log.events[|was.events|];
    && e.kind == "legacy_merged_identity_quarantine_recovered" && e.sequence == revision && e.timestamp == f.now
    && e.payload == env.codec.compact(env.note(RepairedFrom(dir))) && e.repoId == env.repo && e.eventId == f.eventId
  }

  /** Nothing is written exactly when nothing was announced, the confirmed identities do not match what is
      missing, or the repaired snapshot is still not valid. */
  lemma RestoreRefused<C(!new)>(env: Env<C>, p: Repair<C>, f: Fresh, d: Files<C>, dir: string)
    ensures var s, plan := PlanRestore(env, p, d, dir), RestorePlan(env, p, f, d, dir);
            && (plan.writes == [] <==>
                s.None? || p.apply(s.value.body).None?
                || env.validate(s.value.(body := p.apply(s.value.body).value)) != Fine)
            && (plan.writes == [] ==> plan.outcome.Refused?)
  {
    hide PlanRestore, RecoverPlan;
  }

  lemma RepairedIsConfirmed<C(!new)>(env: Env<C>, p: Repair<C>, f: Fresh, s: Snapshot<C>)
    requires Repaired(env, p, f, s).Some?
    ensures Confirmed(env, p, f, s, Repaired(env, p, f, s).value)
    ensures Repaired(env, p, f, s).value.revision == s.revision + 1
  {
  }

  lemma RestoredLogTells<C(!new)>(env: Env<C>, f: Fresh, lines: seq<Byte>, revision: nat, dir: string)
    requires env.Sound()
    requires var was := Parse(Reader(env.codec, env.repo), lines); was.LogOk? && !was.partial
    ensures TellsRestore(env, f, dir, revision, Parse(Reader(env.codec, env.repo), lines),
                         Parse(Reader(env.codec, env.repo), RestoredLog(env, f, lines, revision, dir)))
  {
    hide Parse;
    ParseAppend(env.codec, env.repo, lines, RepairedEvent(env, f, revision, dir));
    assert env.codec.compact(env.codec.compact(env.note(RepairedFrom(dir))))
        == env.codec.compact(env.note(RepairedFrom(dir)));
  }

  /** A journal is completed exactly when it is this repository's, the staged files are still what it names,
      and they hold together. */
  lemma JournalExactly<C(!new)>(env: Env<C>, d: Files<C>, j: Journal<C>)
    requires d.journal == Present(j)
    ensures JournalWrites(env, d).Some? <==>
            var b, log := BackupAt(d, j.backup), Parse(Reader(env.codec, env.repo), j.log);
            && j.repoId == env.repo && b.state == Present(j.state) && b.log == j.log
            && env.validate(j.state) == Fine && j.state.repoId == env.repo && log.LogOk? && !log.partial
            && (j.txn.None? ==> Contiguous(j.state.revision, log.events))
            && (j.txn.Some? ==> b.txn == Present(j.txn.value)
                                && ValidatePrepared(env, j.state, log.events, j.txn).Some?)
  {
    hide Parse, ValidatePrepared;
    var log := Parse(Reader(env.codec, env.repo), j.log);
    if log.LogOk? { SequenceAccepted(j.state.revision, log.events); }
  }

  /** A directory the in-memory validator accepts is one that recovery settles. */
  lemma AcceptedRecoverable<C(!new)>(env: Env<C>, d: Files<C>)
    requires d.state.Present? && Acceptable(env, d.state.value)
    requires Read(env, d).LogOk? && !Read(env, d).partial && (d.txn.Absent? || d.txn.Present?)
    requires ValidatePrepared(env, d.state.value, Read(env, d).events,
                              if d.txn.Present? then Some(d.txn.value) else None).Some?
    ensures Recoverable(env, d)
    ensures Redo(env, d).state == Present(ValidatePrepared(env, d.state.value, Read(env, d).events,
                              if d.txn.Present? then Some(d.txn.value) else None).value)
  {
    var events := Read(env, d).events;
    if d.txn.Absent? {
      SequenceAccepted(d.state.value.revision, events);
    } else {
      var t := d.txn.value;
      RecordedIsLast(events, t.event);
      SequenceAccepted(t.snapshot.revision, Redone(events, t.event));
    }
  }

  function StagedBackup<C>(d: Files<C>, j: Journal<C>): Backup<C> {
    BackupAt(d, j.backup).(state := Present(j.state), log := j.log)
  }

  lemma StagedFilesAre<C(!new)>(env: Env<C>, d: Files<C>, j: Journal<C>)
    ensures ApplyAll(d, StageWrites(j)) == d.(journal := Present(j),
            backups := d.backups[j.backup := StagedBackup(d, j)])
  {
    hide Apply, ApplyAll;
    var a, b, c: Write<C> := StageState(j.backup, j.state), StageLog(j.backup, j.log), PutJournal(j);
    ApplyThree(d, a, b, c);
    ApplyFew(Apply(d, a), b, c);
    StageBoth(d, j);
  }

  lemma StageBoth<C(!new)>(d: Files<C>, j: Journal<C>)
    ensures var d2 := Apply(Apply(d, StageState(j.backup, j.state)), StageLog(j.backup, j.log));
            && d2 == d.(backups := d.backups[j.backup := StagedBackup(d, j)])
            && Apply(d2, PutJournal(j)) == d2.(journal := Present(j))
  {
    var first := d.backups[j.backup := BackupAt(d, j.backup).(state := Present(j.state))];
    assert first[j.backup := StagedBackup(d, j)] == d.backups[j.backup := StagedBackup(d, j)];
  }

  lemma ApplyThree<C>(d: Files<C>, a: Write<C>, b: Write<C>, c: Write<C>)
    ensures ApplyAll(d, [a, b, c]) == ApplyAll(Apply(d, a), [b, c])
  {
    hide Apply;
    assert [a, b, c][1..] == [b, c];
  }

  /** What the plan has checked about the backup. */
  lemma PlanFacts<C(!new)>(env: Env<C>, p: Repair<C>, d: Files<C>, dir: string)
    requires env.Sound() && PlanRestore(env, p, d, dir).Some?
    ensures dir in d.backups && d.backups[dir].txn.Absent?
    ensures var s, log := PlanRestore(env, p, d, dir).value, Parse(Reader(env.codec, env.repo), d.backups[dir].log);
            s.repoId == env.repo && log.LogOk? && !log.partial && Contiguous(s.revision, log.events)
  {
    hide PlanRestore, OnlyMarker, Contiguous, Parse;
    PlanExactly(env, p, d, dir);
    var b := BackupStore(d.backups[dir]);
    assert env.normalize(b.state.value).repoId == b.state.value.repoId;
    assert env.normalize(b.state.value).revision == b.state.value.revision;
  }

  lemma JournalFacts<C(!new)>(env: Env<C>, p: Repair<C>, f: Fresh, d: Files<C>, dir: string)
    requires env.Sound() && StagedJournal(env, p, f, d, dir).Some?
    ensures PlanRestore(env, p, d, dir).Some? && dir in d.backups
    ensures var s, j := PlanRestore(env, p, d, dir).value, StagedJournal(env, p, f, d, dir).value;
            && env.validate(j.state) == Fine && j.state.repoId == s.repoId && j.state.revision == s.revision + 1
            && j.log == d.backups[dir].log + Line(env, RepairedEvent(env, f, s.revision + 1, dir))
            && j.repoId == env.repo && j.backup == f.backupDir && j.txn.None?
  {
    hide PlanFiles, IsMarker, Line;
    var s := PlanRestore(env, p, d, dir).value;
    var repaired := s.(body := p.apply(s.body).value);
    assert env.validate(Stamped(repaired, s.revision + 1, f.now)) == env.validate(repaired);
  }

  /** The staged files are what completion asks for. */
  lemma StagedIsAcceptable<C(!new)>(env: Env<C>, p: Repair<C>, f: Fresh, d: Files<C>, dir: string)
    requires env.Sound() && StagedJournal(env, p, f, d, dir).Some?
    ensures var s, j := PlanRestore(env, p, d, dir).value, StagedJournal(env, p, f, d, dir).value;
            var log := Parse(Reader(env.codec, env.repo), j.log);
            && env.validate(j.state) == Fine && j.state.repoId == env.repo && j.state.revision == s.revision + 1
            && log.LogOk? && !log.partial && Contiguous(j.state.revision, log.events)
            && ValidateSequence(j.state.revision, log.events) == Fine
  {
    hide PlanRestore, StagedJournal, Contiguous;
    JournalFacts(env, p, f, d, dir);
    PlanFacts(env, p, d, dir);
    var s, lines := PlanRestore(env, p, d, dir).value, d.backups[dir].log;
    var events := Parse(Reader(env.codec, env.repo), lines).events;
    var e := RepairedEvent(env, f, s.revision + 1, dir);
    ParseAppend(env.codec, env.repo, lines, e);
    ContiguousExtend(s.revision, events, env.codec.Compacted(e));
    SequenceAccepted(s.revision + 1, events + [env.codec.Compacted(e)]);
  }

  /** An announced restore always completes: once its journal is written, completion accepts it. */
  lemma RestoreCompletes<C(!new)>(env: Env<C>, p: Repair<C>, f: Fresh, d: Files<C>, dir: string)
    requires env.Sound() && StagedJournal(env, p, f, d, dir).Some?
    ensures var j := StagedJournal(env, p, f, d, dir).value;
            JournalWrites(env, ApplyAll(d, StageWrites(j))) == Some([ReplaceLog(j.log), PutState(j.state), DropJournal])
  {
    hide PlanRestore, StagedJournal;
    StagedIsAcceptable(env, p, f, d, dir);
    StagedFilesAre(env, d, StagedJournal(env, p, f, d, dir).value);
    JournalFacts(env, p, f, d, dir);
  }

  // ---------------------------------------------------------------- completion is redo-safe

  /** Any journal that completion accepts makes the directory durable, and its target is what the in-memory
      validator computes from the staged files. */
  lemma JournalAccepted<C(!new)>(env: Env<C>, d: Files<C>, j: Journal<C>)
    requires d.journal == Present(j) && JournalWrites(env, d).Some?
    requires j.txn.None? ==> d.txn.Absent?
    ensures Durable(env, d)
    ensures var log := Parse(Reader(env.codec, env.repo), j.log);
            && log.LogOk? && ValidatePrepared(env, j.state, log.events, j.txn).Some?
            && Target(env, d).state == Present(ValidatePrepared(env, j.state, log.events, j.txn).value)
  {
    StagedFiles(env, d);
    AcceptedRecoverable(env, Staged(env, d));
  }

  /** Redo-safety for every acceptable journal: through any interruptions a recovery left alone succeeds
      exactly as long as none fell into the gap, and then it ends in the staged target. */
  lemma JournalRedoSafe<C(!new)>(env: Env<C>, d: Files<C>, j: Journal<C>, crashes: seq<Crash>)
    requires env.Sound() && d.journal == Present(j) && JournalWrites(env, d).Some?
    requires j.txn.None? ==> d.txn.Absent?
    ensures Durable(env, d) && (AlwaysRecovers(env, d, crashes) <==> Undisturbed(env, d, crashes))
    ensures Undisturbed(env, d, crashes) ==>
              var d' := Interrupted(env, d, crashes); Durable(env, d') && Target(env, d') == Target(env, d)
    ensures j.txn.None? ==> Undisturbed(env, d, crashes)
  {
    hide JournalWrites, Undisturbed, AlwaysRecovers, Recoverable;
    JournalAccepted(env, d, j);
    InterruptedExactly(env, d, crashes);
    if Undisturbed(env, d, crashes) { InterruptedRecovery(env, NO_NAMES, d, crashes); }
    if j.txn.None? {
      StagedFiles(env, d);
      FirmUndisturbed(env, d, crashes);
    }
  }

  /** The directory a restore ends in: the staged files live, and still in the staging directory. */
  function RestoredFiles<C>(d: Files<C>, j: Journal<C>): Files<C> {
    Files(Present(j.state), Absent, j.log, Absent, d.backups[j.backup := StagedBackup(d, j)])
  }

  lemma RestoreTarget<C(!new)>(env: Env<C>, p: Repair<C>, f: Fresh, d: Files<C>, dir: string)
    requires env.Sound() && StagedJournal(env, p, f, d, dir).Some? && d.txn.Absent?
    ensures var j := StagedJournal(env, p, f, d, dir).value;
            var d1 := ApplyAll(d, StageWrites(j));
            Firm(env, d1) && Target(env, d1) == RestoredFiles(d, j)
  {
    hide PlanRestore, StagedJournal;
    var j := StagedJournal(env, p, f, d, dir).value;
    var d1 := ApplyAll(d, StageWrites(j));
    StagedIsAcceptable(env, p, f, d, dir);
    JournalFacts(env, p, f, d, dir);
    RestoreCompletes(env, p, f, d, dir);
    StagedFilesAre(env, d, j);
    StagedFiles(env, d1);
  }

  lemma StageOne<C>(d: Files<C>, j: Journal<C>, w: Write<C>)
    requires w == StageState(j.backup, j.state) || w == StageLog(j.backup, j.log)
    ensures Apply(d, w) == d.(backups := Apply(d, w).backups)
    ensures Apply(d, w).backups - {j.backup} == d.backups - {j.backup}
  {
  }

  /** Before the journal is written a crash has changed nothing but the staging directory. */
  lemma StagingCrash<C(!new)>(d: Files<C>, j: Journal<C>, rest: seq<Write<C>>, k: nat, torn: nat)
    requires k < 3
    ensures var d' := CrashAt(d, StageWrites(j) + rest, k, torn);
            d' == d.(backups := d'.backups) && d'.backups - {j.backup} == d.backups - {j.backup}
  {
    hide Apply;
    var a, b, c: Write<C> := StageState(j.backup, j.state), StageLog(j.backup, j.log), PutJournal(j);
    assert StageWrites(j) + rest == [a] + ([b] + ([c] + rest));
    StageOne(d, j, a);
    StageOne(Apply(d, a), j, b);
    if k > 0 {
      CrashAfter(d, a, [b] + ([c] + rest), k, torn);
      if k > 1 { CrashAfter(Apply(d, a), b, [c] + rest, k - 1, torn); }
    }
  }

  lemma RestoredReads<C(!new)>(env: Env<C>, d: Files<C>, j: Journal<C>)
    ensures Read(env, RestoredFiles(d, j)) == Parse(Reader(env.codec, env.repo), j.log)
  {
  }

  lemma StagedFirst<C(!new)>(env: Env<C>, p: Repair<C>, f: Fresh, d: Files<C>, dir: string)
    requires StagedJournal(env, p, f, d, dir).Some?
    ensures var j := StagedJournal(env, p, f, d, dir).value;
            && |StageWrites(j)| == 3
            && RestorePlan(env, p, f, d, dir).writes
               == StageWrites(j) + RecoverPlan(env, f, ApplyAll(d, StageWrites(j))).writes
  {
    hide RecoverPlan, StagedJournal;
  }

  lemma StagedIsConfirmed<C(!new)>(env: Env<C>, p: Repair<C>, f: Fresh, d: Files<C>, dir: string)
    requires env.Sound() && StagedJournal(env, p, f, d, dir).Some?
    ensures var s, j := PlanRestore(env, p, d, dir), StagedJournal(env, p, f, d, dir).value;
            && s.Some? && dir in d.backups && Confirmed(env, p, f, s.value, j.state)
            && TellsRestore(env, f, dir, s.value.revision + 1, Read(env, BackupStore(d.backups[dir])),
                            Parse(Reader(env.codec, env.repo), j.log))
  {
    hide PlanFiles, IsMarker, TellsRestore, Confirmed, Repaired, Parse, RestoredLog;
    PlanFacts(env, p, d, dir);
    var s := PlanRestore(env, p, d, dir).value;
    RepairedIsConfirmed(env, p, f, s);
    RestoredLogTells(env, f, d.backups[dir].log, s.revision + 1, dir);
  }

  /** A restore ends, for every crash after its journal was written and any number of interrupted
      recoveries, in exactly the staged snapshot and log, one revision above the announced one; a crash
      before that leaves the marker as it was. */
  lemma RestoreRedoSafe<C(!new)>(
      env: Env<C>, p: Repair<C>, f: Fresh, d: Files<C>, dir: string, k: nat, torn: nat, crashes: seq<Crash>)
    requires env.Sound() && StagedJournal(env, p, f, d, dir).Some? && d.txn.Absent?
    ensures var s, j := PlanRestore(env, p, d, dir).value, StagedJournal(env, p, f, d, dir).value;
            var d1 := CrashAt(d, RestorePlan(env, p, f, d, dir).writes, k, torn);
            var d' := Interrupted(env, d1, crashes);
            && j.state.revision == s.revision + 1
            && (k < 3 ==> d1 == d.(backups := d1.backups) && d1.backups - {j.backup} == d.backups - {j.backup})
            && dir in d.backups && Confirmed(env, p, f, s, j.state)
            && (k >= 3 ==>
                  && Durable(env, d') && Target(env, d') == RestoredFiles(d, j)
                  && TellsRestore(env, f, dir, s.revision + 1, Read(env, BackupStore(d.backups[dir])),
                                  Read(env, Target(env, d'))))
  {
    hide *;
    StagedIsAcceptable(env, p, f, d, dir);
    StagedIsConfirmed(env, p, f, d, dir);
    StagedFirst(env, p, f, d, dir);
    var j := StagedJournal(env, p, f, d, dir).value;
    if k < 3 {
      StagingCrash(d, j, RecoverPlan(env, f, ApplyAll(d, StageWrites(j))).writes, k, torn);
    } else {
      AnnouncedCrash(env, p, f, d, dir, k, torn, crashes);
      RestoredReads(env, d, j);
    }
  }

  lemma AnnouncedCrash<C(!new)>(
      env: Env<C>, p: Repair<C>, f: Fresh, d: Files<C>, dir: string, k: nat, torn: nat, crashes: seq<Crash>)
    requires env.Sound() && StagedJournal(env, p, f, d, dir).Some? && d.txn.Absent? && k >= 3
    ensures var j := StagedJournal(env, p, f, d, dir).value;
            var d' := Interrupted(env, CrashAt(d, RestorePlan(env, p, f, d, dir).writes, k, torn), crashes);
            Durable(env, d') && Target(env, d') == RestoredFiles(d, j)
  {
    hide PlanRestore, StagedJournal, Durable, Target, Firm, RecoverPlan, RecoverWrites, Interrupted, Undisturbed, Read,
         RestoredFiles, StageWrites, RestorePlan, CrashAt, ApplyAll;
    var j := StagedJournal(env, p, f, d, dir).value;
    var ws := StageWrites(j);
    var staged := ApplyAll(d, ws);
    RestoreTarget(env, p, f, d, dir);
    StagedFirst(env, p, f, d, dir);
    var rest := RecoverPlan(env, f, staged).writes;
    CrashConcat(d, ws, rest, k, torn);
    FirmDurable(env, staged);
    AfterCrash(env, staged, Crash(f, k - 3, torn));
    var d1 := CrashAt(staged, rest, k - 3, torn);
    FirmUndisturbed(env, d1, crashes);
    InterruptedRecovery(env, f, d1, crashes);
  }

  lemma FirmDurable<C(!new)>(env: Env<C>, d: Files<C>)
    requires Firm(env, d)
    ensures Durable(env, d)
  {
  }
}
