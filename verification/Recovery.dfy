/**
 Recovery of the durable files: completing a staged restore, redoing a prepared
 transaction, repairing a torn log tail, and quarantine.

 A plan is the sequence of writes one uninterrupted call makes and what it returns.
 */
module Recovery {
  import opened Wrappers
  import opened EventLog
  import opened Disk

  /** What the events that the store makes up itself are about. */
  datatype Note =
    | TailCut(at: nat)
    | SetAsideAt(dir: string)
    | ArchivedThrough(revision: nat)
    | RepairedFrom(dir: string)

  function Stamped<C>(s: Snapshot<C>, revision: nat, at: int): Snapshot<C> { s.(revision := revision, updatedAt := at) }

  /**
   What the store is given: the codec, its repository, the aggregate validator, the
   normalisation applied to everything it loads, the contents of a fresh snapshot and
   of the snapshot that marks a blocked recovery, and the payloads of its own events.
   */
  datatype Env<!C(!new)> = Env(
    codec: Codec, repo: string,
    validate: Snapshot<C> -> Verdict, normalize: Snapshot<C> -> Snapshot<C>,
    empty: C, marker: string -> C, note: Note -> seq<Byte>)
  {
    /** The validator accepts only the current schema, finds no other fault with another one, and does
        not look at revision and time; normalisation changes only the body, and only of what it rejects. */
    ghost predicate Sound() {
      && codec.Faithful()
      && (forall s: Snapshot<C> :: validate(s) == Fine ==> s.version == CURRENT_VERSION && normalize(s) == s)
      && (forall s: Snapshot<C> :: validate(s) == Incompatible ==> s.version != CURRENT_VERSION)
      && (forall s: Snapshot<C> :: normalize(s) == s.(body := normalize(s).body))
      && (forall s: Snapshot<C>, revision: nat, at: int :: validate(Stamped(s, revision, at)) == validate(s))
    }

    /** A payload as it is first encoded. */
    function Payload(n: Note): seq<Byte> { codec.compact(note(n)) }

    function EmptySnapshot(now: int): Snapshot<C> {
      Snapshot(CURRENT_VERSION, repo, 0, now, false, empty)
    }
  }

  /** Names and times made up during one call. */
  datatype Fresh = Fresh(now: int, eventId: string, checkpointId: string, backupDir: string)

  datatype Outcome<C> =
    | Recovered(snapshot: Snapshot<C>)
    | Refused
    | Blocked(snapshot: Snapshot<C>)

  datatype Plan<C> = Plan(writes: seq<Write<C>>, outcome: Outcome<C>)
  {
    function After(before: seq<Write<C>>): Plan<C> { Plan(before + writes, outcome) }
  }

  ghost function Read<C(!new)>(env: Env<C>, d: Files<C>): LogRead {
    Parse(Reader(env.codec, env.repo), d.log)
  }

  function Line<C(!new)>(env: Env<C>, e: Event): seq<Byte> { env.codec.Line(e) }

  /** Equality of events up to their time stamp. */
  predicate SameEvent(a: Event, b: Event) { a.(timestamp := b.timestamp) == b }

  function ValidateTxn<C(!new)>(env: Env<C>, t: Txn<C>): Verdict {
    if t.version != CURRENT_VERSION || t.snapshot.version != CURRENT_VERSION || t.event.version != CURRENT_VERSION
    then Incompatible
    else if t.snapshot.repoId != env.repo || t.event.repoId != env.repo then Invalid
    else if t.event.sequence == 0 then Invalid
    else if t.snapshot.revision != t.event.sequence then Invalid
    else env.validate(t.snapshot)
  }

  function ValidateConsistency<C(!new)>(env: Env<C>, s: Snapshot<C>, events: seq<Event>): Verdict {
    var order := ValidateSequence(s.revision, events);
    if order != Fine then order else env.validate(s)
  }

  /** The state file as the store loads it: checked for schema and owner, then normalised. */
  function LoadState<C(!new)>(env: Env<C>, d: Files<C>): Stored<Snapshot<C>> {
    if !d.state.Present? then d.state
    else if d.state.value.version != CURRENT_VERSION then Stored.Foreign
    else if d.state.value.repoId != env.repo then Garbage
    else Present(env.normalize(d.state.value))
  }

  function LoadTxn<C(!new)>(env: Env<C>, d: Files<C>): Stored<Txn<C>> {
    if !d.txn.Present? then d.txn
    else
      var t := d.txn.value;
      if t.version != CURRENT_VERSION || t.snapshot.version != CURRENT_VERSION then Stored.Foreign
      else Present(Txn(t.version, env.normalize(t.snapshot), t.event))
  }

  // ---------------------------------------------------------------- quarantine

  function MarkerSnapshot<C(!new)>(env: Env<C>, f: Fresh): Snapshot<C> {
    Snapshot(CURRENT_VERSION, env.repo, 1, f.now, true, env.marker(f.backupDir))
  }

  function MarkerEvent<C(!new)>(env: Env<C>, f: Fresh): Event {
    Event(CURRENT_VERSION, f.eventId, 1, f.now, env.repo, 0, "", "recovery_blocked",
          env.Payload(SetAsideAt(f.backupDir)))
  }

  predicate MarkerValid<C(!new)>(env: Env<C>, f: Fresh) {
    ValidateTxn(env, Txn(CURRENT_VERSION, MarkerSnapshot(env, f), MarkerEvent(env, f))) == Fine
  }

  function MarkerWrites<C(!new)>(env: Env<C>, f: Fresh): seq<Write<C>> {
    [Append(Line(env, MarkerEvent(env, f))), PutState(MarkerSnapshot(env, f))]
  }

  function SetAside<C(!new)>(d: Files<C>, dir: string): seq<Write<C>> {
    (if d.state.Absent? then [] else [SetAsideState(dir)]) +
    (if d.log == [] then [] else [SetAsideLog(dir)]) +
    (if d.txn.Absent? then [] else [SetAsideTxn(dir)])
  }

  /** Moves the three files aside and leaves a marker that blocks every update. */
  function QuarantinePlan<C(!new)>(env: Env<C>, f: Fresh, d: Files<C>): Plan<C> {
    var aside := SetAside(d, f.backupDir);
    if !MarkerValid(env, f) then Plan(aside, Refused)
    else Plan(aside + MarkerWrites(env, f), Blocked(MarkerSnapshot(env, f)))
  }

  // ---------------------------------------------------------------- the prepared transaction

  /** Validation of a staged or backed-up state without touching any file. */
  function ValidatePrepared<C(==,!new)>(
      env: Env<C>, s: Snapshot<C>, events: seq<Event>, t: Option<Txn<C>>): Option<Snapshot<C>> {
    match t
    case None => if ValidateConsistency(env, s, events) == Fine then Some(s) else None
    case Some(txn) =>
      if ValidateTxn(env, txn) != Fine then None
      else
        var last := LastSequence(events);
        if last == txn.event.sequence && (events == [] || !SameEvent(events[|events| - 1], txn.event)) then None
        else if last != txn.event.sequence && last + 1 != txn.event.sequence then None
        else
          var all := if last == txn.event.sequence then events else events + [txn.event];
          if s.revision > txn.snapshot.revision then None
          else if s.revision == txn.snapshot.revision && s != txn.snapshot then None
          else
            var final := if s.revision == txn.snapshot.revision then s else txn.snapshot;
            if ValidateConsistency(env, final, all) == Fine then Some(final) else None
  }

  /** The writes that copy a staged restore over the live files, or nothing when the journal
      does not match its backup or the staged state is not acceptable. */
  ghost function JournalWrites<C(!new)>(env: Env<C>, d: Files<C>): Option<seq<Write<C>>> {
    match d.journal
    case Absent => Some([])
    case Garbage => None
    case Foreign => None
    case Present(j) =>
      var b := BackupAt(d, j.backup);
      var log := Parse(Reader(env.codec, env.repo), j.log);
      if j.repoId != env.repo || b.state != Present(j.state) || b.log != j.log then None
      else if env.validate(j.state) != Fine || j.state.repoId != env.repo || !log.LogOk? || log.partial then None
      else if j.txn.None? then
        if ValidateSequence(j.state.revision, log.events) != Fine then None
        else Some([ReplaceLog(j.log), PutState(j.state), DropJournal])
      else
        if b.txn != Present(j.txn.value) then None
        else if ValidatePrepared(env, j.state, log.events, j.txn).None? then None
        else Some([PutTxn(j.txn.value), ReplaceLog(j.log), PutState(j.state), DropJournal])
  }

  // ---------------------------------------------------------------- recovery

  ghost function ConsistencyPlan<C(!new)>(env: Env<C>, f: Fresh, d: Files<C>, s: Snapshot<C>): Plan<C> {
    var log := Read(env, d);
    if !log.LogOk? then Plan([], Refused)
    else match ValidateConsistency(env, s, log.events)
      case Fine => Plan([], Recovered(s))
      case Incompatible => Plan([], Refused)
      case Invalid => QuarantinePlan(env, f, d)
  }

  function RepairEvent<C(!new)>(env: Env<C>, f: Fresh, revision: nat, at: nat): Event {
    Event(CURRENT_VERSION, f.eventId, revision, f.now, env.repo, 0, "", "event_log_tail_truncated",
          env.Payload(TailCut(at)))
  }

  /** Records a tail truncated at the end of the log as one more event and one more revision. */
  ghost function RepairPlan<C(!new)>(env: Env<C>, f: Fresh, d: Files<C>, s: Snapshot<C>): Plan<C> {
    var s' := s.(revision := s.revision + 1, updatedAt := f.now);
    var t := Txn(CURRENT_VERSION, s', RepairEvent(env, f, s.revision + 1, |d.log|));
    if env.validate(s') != Fine || ValidateTxn(env, t) != Fine then Plan([], Refused)
    else
      var ws := CommitWrites(env, t);
      ConsistencyPlan(env, f, ApplyAll(d, ws), s').After(ws)
  }

  /** The transaction as its file gives it back. */
  function Filed<C(!new)>(env: Env<C>, t: Txn<C>): Txn<C> { t.(event := env.codec.Indented(t.event)) }

  /** The four writes of one commit, in order. */
  function CommitWrites<C(!new)>(env: Env<C>, t: Txn<C>): seq<Write<C>> {
    [PutTxn(Filed(env, t)), Append(Line(env, t.event)), PutState(t.snapshot), DropTxn]
  }

  ghost function SettlePlan<C(!new)>(env: Env<C>, f: Fresh, d: Files<C>, loaded: Stored<Snapshot<C>>): Plan<C> {
    var log := Read(env, d);
    if !log.LogOk? then Plan([], Refused)
    else if !loaded.Present? then
      if log.events != [] || log.partial then QuarantinePlan(env, f, d)
      else Plan([], Recovered(env.EmptySnapshot(f.now)))
    else
      var s := loaded.value;
      if !log.partial then ConsistencyPlan(env, f, d, s)
      else if s.revision != LastSequence(log.events) then QuarantinePlan(env, f, d)
      else
        var cut := Truncate(log.validBytes);
        RepairPlan(env, f, Apply(d, cut), s).After([cut])
  }

  /** After the event is in the log: bring the snapshot to the transaction and drop it. */
  ghost function AdvancePlan<C(!new)>(
      env: Env<C>, f: Fresh, d: Files<C>, loaded: Stored<Snapshot<C>>, t: Txn<C>): Plan<C> {
    if loaded.Present? && loaded.value.revision > t.snapshot.revision then QuarantinePlan(env, f, d)
    else if loaded.Present? && loaded.value.revision == t.snapshot.revision then
      if loaded.value != t.snapshot then QuarantinePlan(env, f, d)
      else SettlePlan(env, f, Apply(d, DropTxn), loaded).After([DropTxn])
    else
      var ws := [PutState(t.snapshot), DropTxn];
      SettlePlan(env, f, ApplyAll(d, ws), Present(t.snapshot)).After(ws)
  }

  function Cut<C>(log: LogRead): seq<Write<C>>
    requires log.LogOk?
  {
    if log.partial then [Truncate(log.validBytes)] else []
  }

  /** With torn bytes cut off: append the event if it is the next one, then advance the files. */
  ghost function WholePlan<C(!new)>(
      env: Env<C>, f: Fresh, d: Files<C>, events: seq<Event>, loaded: Stored<Snapshot<C>>, t: Txn<C>): Plan<C> {
    var last := LastSequence(events);
    if last == t.event.sequence then
      if events == [] || !SameEvent(events[|events| - 1], t.event) then QuarantinePlan(env, f, d)
      else AdvancePlan(env, f, d, loaded, t)
    else if last + 1 == t.event.sequence then
      var add := Append(Line(env, t.event));
      AdvancePlan(env, f, Apply(d, add), loaded, t).After([add])
    else QuarantinePlan(env, f, d)
  }

  ghost function RedoPlan<C(!new)>(env: Env<C>, f: Fresh, d: Files<C>, loaded: Stored<Snapshot<C>>, t: Txn<C>): Plan<C>
    requires Read(env, d).LogOk?
  {
    match ValidateTxn(env, t)
    case Incompatible => Plan([], Refused)
    case Invalid => QuarantinePlan(env, f, d)
    case Fine =>
      var cut := Cut(Read(env, d));
      WholePlan(env, f, ApplyAll(d, cut), Read(env, d).events, loaded, t).After(cut)
  }

  ghost function CorePlan<C(!new)>(env: Env<C>, f: Fresh, d: Files<C>): Plan<C> {
    var loaded, log, txn := LoadState(env, d), Read(env, d), LoadTxn(env, d);
    if loaded.Garbage? then QuarantinePlan(env, f, d)
    else if loaded.Foreign? || log.LogIncompatible? then Plan([], Refused)
    else if log.LogCorrupt? || txn.Garbage? then QuarantinePlan(env, f, d)
    else if txn.Foreign? then Plan([], Refused)
    else if txn.Present? then RedoPlan(env, f, d, loaded, txn.value)
    else SettlePlan(env, f, d, loaded)
  }

  /** One uninterrupted recovery. */
  ghost function RecoverPlan<C(!new)>(env: Env<C>, f: Fresh, d: Files<C>): Plan<C> {
    match JournalWrites(env, d)
    case None => Plan([], Refused)
    case Some(ws) => CorePlan(env, f, ApplyAll(d, ws)).After(ws)
  }
}
