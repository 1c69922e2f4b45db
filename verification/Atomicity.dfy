/**
 Crash safety of recovery: a durable directory means one snapshot and one event
 list.  No crash during recovery changes which, with one exception: while the event of
 the transaction is in the log and its payload does not survive the transaction file,
 the two conflict, and recovery quarantines the directory.
 */
module Atomicity {
  import opened Wrappers
  import opened EventLog
  import opened Disk
  import opened Recovery

  // ---------------------------------------------------------------- a transaction against a log and a snapshot

  predicate Recorded(events: seq<Event>, e: Event) {
    events != [] && SameEvent(events[|events| - 1], e)
  }

  function Redone(events: seq<Event>, e: Event): seq<Event> {
    if Recorded(events, e) then events else events + [e]
  }

  /** The transaction is acceptable and is the last event of the log or the next one. */
  ghost predicate Continues<C(!new)>(env: Env<C>, events: seq<Event>, t: Txn<C>) {
    && ValidateTxn(env, t) == Fine
    && (Recorded(events, t.event) || LastSequence(events) + 1 == t.event.sequence)
    && Contiguous(t.snapshot.revision, Redone(events, t.event))
  }

  ghost predicate Acceptable<C(!new)>(env: Env<C>, s: Snapshot<C>) {
    s.repoId == env.repo && env.validate(s) == Fine
  }

  /** The state file is missing, older than the transaction, or already what it says. */
  ghost predicate Behind<C(!new)>(env: Env<C>, state: Stored<Snapshot<C>>, next: Snapshot<C>) {
    state.Absent? || (state.Present? && Acceptable(env, state.value)
                      && (state.value.revision < next.revision || state.value == next))
  }

  lemma RecordedIsLast(events: seq<Event>, e: Event)
    ensures Recorded(events, e) ==> LastSequence(events) == e.sequence
    ensures Recorded(events + [e], e) && LastSequence(events + [e]) == e.sequence
  {
  }

  /** The log ends with the event of a transaction when they agree in everything but the time stamp. */
  lemma RecordedExactly(events: seq<Event>, e: Event)
    ensures Recorded(events, e) <==>
            && events != []
            && var last := events[|events| - 1];
               && last.version == e.version && last.eventId == e.eventId && last.sequence == e.sequence
               && last.repoId == e.repoId && last.issueNumber == e.issueNumber && last.runId == e.runId
               && last.kind == e.kind && last.payload == e.payload
  {
  }

  /** The log gives the event back as the transaction file does. */
  predicate Stable<C(!new)>(env: Env<C>, e: Event) { env.codec.Compacted(e) == e }

  lemma ContinuesAppended<C(!new)>(env: Env<C>, events: seq<Event>, t: Txn<C>)
    requires Continues(env, events, t) && !Recorded(events, t.event)
    ensures var all := events + [env.codec.Compacted(t.event)];
            && Contiguous(t.snapshot.revision, all) && LastSequence(all) == t.event.sequence
            && (Recorded(all, t.event) <==> Stable(env, t.event))
            && (Stable(env, t.event) ==> Continues(env, all, t))
  {
    RecordedIsLast(events, t.event);
    ContiguousCompacted(env, events, t.event, t.snapshot.revision);
  }

  lemma ContiguousCompacted<C(!new)>(env: Env<C>, events: seq<Event>, e: Event, revision: nat)
    requires Contiguous(revision, events + [e])
    ensures Contiguous(revision, events + [env.codec.Compacted(e)])
  {
    var was, all := events + [e], events + [env.codec.Compacted(e)];
    assert forall i :: 0 <= i < |all| ==>
             all[i].sequence == was[i].sequence && all[i].version == was[i].version && all[i].kind == was[i].kind;
  }

  // ---------------------------------------------------------------- directories without a restore journal

  /** A settled directory: snapshot and log agree, and nothing is pending. */
  ghost predicate Settled<C(!new)>(env: Env<C>, d: Files<C>) {
    var log := Read(env, d);
    && d.txn.Absent? && log.LogOk? && !log.partial
    && (d.state.Absent? ==> log.events == [])
    && (d.state.Present? ==> Acceptable(env, d.state.value) && Contiguous(d.state.value.revision, log.events))
    && (d.state.Absent? || d.state.Present?)
  }

  /** A prepared directory: the transaction continues the log, whatever torn bytes follow it. */
  ghost predicate Prepared<C(!new)>(env: Env<C>, d: Files<C>) {
    var log := Read(env, d);
    && log.LogOk? && d.txn.Present?
    && Continues(env, log.events, d.txn.value) && Behind(env, d.state, d.txn.value.snapshot)
  }

  ghost predicate Recoverable<C(!new)>(env: Env<C>, d: Files<C>) {
    Settled(env, d) || Prepared(env, d)
  }

  /** The bytes of the complete lines. */
  ghost function Kept<C(!new)>(env: Env<C>, d: Files<C>): seq<Byte>
    requires Read(env, d).LogOk?
  {
    d.log[..Read(env, d).validBytes]
  }

  /** The directory that redoing the prepared transaction leads to. */
  ghost function Redo<C(!new)>(env: Env<C>, d: Files<C>): Files<C>
    requires Recoverable(env, d)
  {
    if d.txn.Absent? then d
    else
      var t := d.txn.value;
      Files(Present(t.snapshot), Absent,
            if Recorded(Read(env, d).events, t.event) then Kept(env, d) else Kept(env, d) + Line(env, t.event),
            d.journal, d.backups)
  }

  /** The writes still missing for that. */
  ghost function RedoWrites<C(!new)>(env: Env<C>, d: Files<C>): seq<Write<C>>
    requires Recoverable(env, d)
  {
    if d.txn.Absent? then [] else Cut(Read(env, d)) + WholeLineWrites(env, Read(env, d).events, d.state, d.txn.value)
  }

  ghost function WholeLineWrites<C(!new)>(
      env: Env<C>, events: seq<Event>, state: Stored<Snapshot<C>>, t: Txn<C>): seq<Write<C>> {
    if Recorded(events, t.event) then FileWrites(state, t) else [Append(Line(env, t.event))] + FileWrites(state, t)
  }

  ghost function FileWrites<C>(state: Stored<Snapshot<C>>, t: Txn<C>): seq<Write<C>> {
    if state == Present(t.snapshot) then [DropTxn] else [PutState(t.snapshot), DropTxn]
  }

  /** The directories that mean `target`. */
  ghost function Means<C(!new)>(env: Env<C>, target: Files<C>): Files<C> -> bool {
    d => Recoverable(env, d) && Redo(env, d) == target
  }

  /** Those that no crash in their recovery strands. */
  ghost function Firmly<C(!new)>(env: Env<C>, target: Files<C>): Files<C> -> bool {
    d => Recoverable(env, d) && Redo(env, d) == target && !Fragile(env, d)
  }

  // ---------------------------------------------------------------- one write of the redo

  lemma CutReads<C(!new)>(env: Env<C>, d: Files<C>)
    requires Read(env, d).LogOk?
    ensures var log, d1 := Read(env, d), d.(log := Kept(env, d));
            Read(env, d1) == LogOk(log.events, log.validBytes, false) && Kept(env, d1) == Kept(env, d)
  {
    ParseTruncated(Reader(env.codec, env.repo), d.log);
  }

  lemma KeptWhole<C(!new)>(env: Env<C>, d: Files<C>)
    requires Read(env, d).LogOk? && !Read(env, d).partial
    ensures Kept(env, d) == d.log
  {
  }

  lemma AppendReads<C(!new)>(env: Env<C>, d: Files<C>, e: Event)
    requires env.codec.Faithful() && e.version == CURRENT_VERSION && e.repoId == env.repo
    requires Read(env, d).LogOk? && !Read(env, d).partial
    ensures var d1 := Apply(d, Append(Line(env, e)));
            && Read(env, d1) == LogOk(Read(env, d).events + [env.codec.Compacted(e)], |d1.log|, false)
            && Kept(env, d1) == Kept(env, d) + Line(env, e)
  {
    ParseAppend(env.codec, env.repo, d.log, e);
    KeptWhole(env, d);
    KeptWhole(env, Apply(d, Append(Line(env, e))));
  }

  lemma TornReads<C(!new)>(env: Env<C>, d: Files<C>, e: Event, torn: nat)
    requires env.codec.Faithful() && torn < |Line(env, e)|
    requires Read(env, d).LogOk? && !Read(env, d).partial
    ensures var d1 := Torn(d, Append(Line(env, e)), torn);
            && Read(env, d1) == LogOk(Read(env, d).events, |d.log|, torn > 0)
            && Kept(env, d1) == Kept(env, d)
  {
    KeptWhole(env, d);
    ParseTorn(Reader(env.codec, env.repo), env.codec, d.log, e, torn);
    var line := Line(env, e);
    assert (d.log + line[..torn])[..|d.log|] == d.log;
  }

  /** The event is still to be appended, and once it is the transaction will seem to conflict with it. */
  ghost predicate Fragile<C(!new)>(env: Env<C>, d: Files<C>) {
    Prepared(env, d) && !Recorded(Read(env, d).events, d.txn.value.event) && !Stable(env, d.txn.value.event)
  }

  lemma StepCut<C(!new)>(env: Env<C>, d: Files<C>)
    requires Prepared(env, d) && Read(env, d).partial
    ensures var d1 := Apply(d, Truncate(Read(env, d).validBytes));
            && Prepared(env, d1) && (Fragile(env, d1) <==> Fragile(env, d))
            && Read(env, d1).LogOk? && !Read(env, d1).partial && d1.txn == d.txn && d1.journal == d.journal
            && Redo(env, d1) == Redo(env, d)
            && RedoWrites(env, d) == [Truncate(Read(env, d).validBytes)] + RedoWrites(env, d1)
  {
    CutReads(env, d);
    var d1 := Apply(d, Truncate(Read(env, d).validBytes));
    assert d1 == d.(log := Kept(env, d));
    assert Prepared(env, d1);
    assert Redo(env, d1) == Redo(env, d);
  }

  lemma StepAppend<C(!new)>(env: Env<C>, d: Files<C>)
    requires env.Sound() && Prepared(env, d)
    requires !Read(env, d).partial && !Recorded(Read(env, d).events, d.txn.value.event)
    requires Stable(env, d.txn.value.event)
    ensures var d1 := Apply(d, Append(Line(env, d.txn.value.event)));
            && Prepared(env, d1) && !Fragile(env, d1)
            && Redo(env, d1) == Redo(env, d)
            && RedoWrites(env, d) == [Append(Line(env, d.txn.value.event))] + RedoWrites(env, d1)
  {
    var t, events := d.txn.value, Read(env, d).events;
    assert t.event.version == CURRENT_VERSION && t.event.repoId == env.repo;
    AppendReads(env, d, t.event);
    ContinuesAppended(env, events, t);
    RecordedIsLast(events, t.event);
  }

  /** The snapshot and transaction writes do not touch the log. */
  lemma StepFiles<C(!new)>(env: Env<C>, d: Files<C>)
    requires Prepared(env, d)
    requires !Read(env, d).partial && Recorded(Read(env, d).events, d.txn.value.event)
    ensures var w := if d.state == Present(d.txn.value.snapshot) then DropTxn else PutState(d.txn.value.snapshot);
            var d1 := Apply(d, w);
            && Recoverable(env, d1) && !Fragile(env, d1)
            && Redo(env, d1) == Redo(env, d)
            && RedoWrites(env, d) == [w] + RedoWrites(env, d1)
  {
    KeptWhole(env, d);
  }

  /** Each write of the redo leads to a directory of the same meaning with the rest still to do. */
  lemma RedoStep<C(!new)>(env: Env<C>, d: Files<C>)
    requires env.Sound() && Prepared(env, d) && !Fragile(env, d)
    ensures RedoWrites(env, d) != []
    ensures var d1 := Apply(d, RedoWrites(env, d)[0]);
            && !Fragile(env, d1) && Recoverable(env, d1) && Redo(env, d1) == Redo(env, d)
               && RedoWrites(env, d1) == RedoWrites(env, d)[1..]
  {
    if Read(env, d).partial {
      StepCut(env, d);
    } else if !Recorded(Read(env, d).events, d.txn.value.event) {
      StepAppend(env, d);
    } else {
      StepFiles(env, d);
    }
  }

  /** Bytes of the next line without its end change nothing. */
  lemma TornPrefix<C(!new)>(env: Env<C>, d: Files<C>, torn: nat)
    requires env.Sound() && Prepared(env, d) && torn < |Line(env, d.txn.value.event)|
    requires !Read(env, d).partial && !Recorded(Read(env, d).events, d.txn.value.event)
    ensures var d1 := Torn(d, Append(Line(env, d.txn.value.event)), torn);
            Prepared(env, d1) && Redo(env, d1) == Redo(env, d) && (Fragile(env, d1) <==> Fragile(env, d))
  {
    TornReads(env, d, d.txn.value.event, torn);
  }

  /** So does an append that a crash tears. */
  lemma TornAppend<C(!new)>(env: Env<C>, d: Files<C>, torn: nat)
    requires env.Sound() && Prepared(env, d)
    requires !Read(env, d).partial && !Recorded(Read(env, d).events, d.txn.value.event)
    requires torn == |Line(env, d.txn.value.event)| ==> Stable(env, d.txn.value.event)
    ensures var d1 := Torn(d, Append(Line(env, d.txn.value.event)), torn);
            Recoverable(env, d1) && Redo(env, d1) == Redo(env, d) && (!Fragile(env, d) ==> !Fragile(env, d1))
  {
    hide Fragile, Redo, Recorded, Stable;
    var line := Line(env, d.txn.value.event);
    if torn < |line| {
      TornPrefix(env, d, torn);
    } else if torn == |line| {
      assert line[..torn] == line;
      StepAppend(env, d);
    }
  }

  lemma RedoTorn<C(!new)>(env: Env<C>, d: Files<C>, torn: nat)
    requires env.Sound() && Prepared(env, d) && !Fragile(env, d)
    ensures RedoWrites(env, d) != []
    ensures Firmly(env, Redo(env, d))(Torn(d, RedoWrites(env, d)[0], torn))
  {
    if Read(env, d).partial {
      StepCut(env, d);
    } else if !Recorded(Read(env, d).events, d.txn.value.event) {
      StepAppend(env, d);
      TornAppend(env, d, torn);
    } else {
      StepFiles(env, d);
    }
  }

  /** Unless the directory is fragile, no crash in the redo changes what it means, and the whole redo gets there. */
  lemma {:induction false} RedoKeeps<C(!new)>(env: Env<C>, d: Files<C>, target: Files<C>)
    requires env.Sound() && Firmly(env, target)(d)
    ensures Keeps(Firmly(env, target), d, RedoWrites(env, d))
    ensures ApplyAll(d, RedoWrites(env, d)) == target && Settled(env, target)
    decreases |RedoWrites(env, d)|
  {
    if Prepared(env, d) {
      RedoStep(env, d);
      forall torn: nat ensures Firmly(env, target)(Torn(d, RedoWrites(env, d)[0], torn)) {
        RedoTorn(env, d, torn);
      }
      RedoKeeps(env, Apply(d, RedoWrites(env, d)[0]), target);
    }
  }

  // ---------------------------------------------------------------- the redo is what recovery does

  /** The snapshot a recovery of a settled directory returns. */
  function Current<C(!new)>(env: Env<C>, f: Fresh, d: Files<C>): Snapshot<C> {
    if d.state.Present? then d.state.value else env.EmptySnapshot(f.now)
  }

  lemma LoadAccepted<C(!new)>(env: Env<C>, d: Files<C>)
    requires env.Sound() && (d.state.Absent? || (d.state.Present? && Acceptable(env, d.state.value)))
    ensures LoadState(env, d) == d.state
  {
  }

  lemma LoadPrepared<C(!new)>(env: Env<C>, d: Files<C>)
    requires env.Sound() && d.txn.Present? && ValidateTxn(env, d.txn.value) == Fine
    ensures LoadTxn(env, d) == d.txn
  {
  }

  lemma SettledPlan<C(!new)>(env: Env<C>, f: Fresh, d: Files<C>)
    requires env.Sound() && Settled(env, d)
    ensures SettlePlan(env, f, d, d.state) == Plan([], Recovered(Current(env, f, d)))
  {
    if d.state.Present? { SequenceAccepted(d.state.value.revision, Read(env, d).events); }
  }

  /** The event of the transaction ends the log, in whatever spelling. */
  ghost predicate Logged<C(!new)>(env: Env<C>, d: Files<C>) {
    && d.txn.Present? && ValidateTxn(env, d.txn.value) == Fine
    && Read(env, d).LogOk? && !Read(env, d).partial
    && Contiguous(d.txn.value.snapshot.revision, Read(env, d).events)
    && LastSequence(Read(env, d).events) == d.txn.value.event.sequence
    && Behind(env, d.state, d.txn.value.snapshot)
  }

  lemma RecordedIsLogged<C(!new)>(env: Env<C>, d: Files<C>)
    requires Prepared(env, d) && !Read(env, d).partial && Recorded(Read(env, d).events, d.txn.value.event)
    ensures Logged(env, d)
  {
    RecordedIsLast(Read(env, d).events, d.txn.value.event);
  }

  lemma AppendIsLogged<C(!new)>(env: Env<C>, d: Files<C>)
    requires env.Sound() && Prepared(env, d)
    requires !Read(env, d).partial && !Recorded(Read(env, d).events, d.txn.value.event)
    ensures var d1 := Apply(d, Append(Line(env, d.txn.value.event)));
            && Logged(env, d1)
            && (Recorded(Read(env, d1).events, d.txn.value.event) <==> Stable(env, d.txn.value.event))
            && d1.(state := Present(d.txn.value.snapshot), txn := Absent) == Redo(env, d)
  {
    AppendReads(env, d, d.txn.value.event);
    ContinuesAppended(env, Read(env, d).events, d.txn.value);
    KeptWhole(env, d);
  }

  lemma FilesSettle<C(!new)>(env: Env<C>, d: Files<C>)
    requires Logged(env, d)
    ensures var d1 := d.(state := Present(d.txn.value.snapshot), txn := Absent);
            ApplyAll(d, FileWrites(d.state, d.txn.value)) == d1 && Settled(env, d1)
  {
    var t := d.txn.value;
    ApplyFew(d, DropTxn, DropTxn);
    ApplyFew(d, PutState(t.snapshot), DropTxn);
  }

  lemma AdvanceSettles<C(!new)>(env: Env<C>, f: Fresh, d: Files<C>)
    requires env.Sound() && Logged(env, d)
    ensures AdvancePlan(env, f, d, d.state, d.txn.value)
            == Plan(FileWrites(d.state, d.txn.value), Recovered(d.txn.value.snapshot))
  {
    var t := d.txn.value;
    var ws := FileWrites(d.state, t);
    FilesSettle(env, d);
    SettledPlan(env, f, ApplyAll(d, ws));
    ApplyFew(d, DropTxn, DropTxn);
    assert Plan([], Recovered(t.snapshot)).After(ws).writes == ws;
  }

  /** With the log whole, recovery adds the event if it is missing and then moves the snapshot.  It does
      not compare an event it has added itself. */
  lemma WholeSettles<C(!new)>(env: Env<C>, f: Fresh, d: Files<C>)
    requires env.Sound() && Prepared(env, d) && !Read(env, d).partial
    ensures WholePlan(env, f, d, Read(env, d).events, d.state, d.txn.value)
            == Plan(WholeLineWrites(env, Read(env, d).events, d.state, d.txn.value), Recovered(d.txn.value.snapshot))
  {
    var t, events := d.txn.value, Read(env, d).events;
    RecordedIsLast(events, t.event);
    if Recorded(events, t.event) {
      RecordedIsLogged(env, d);
      AdvanceSettles(env, f, d);
    } else {
      AppendIsLogged(env, d);
      AdvanceSettles(env, f, Apply(d, Append(Line(env, t.event))));
    }
  }

  lemma RedoSettles<C(!new)>(env: Env<C>, f: Fresh, d: Files<C>)
    requires env.Sound() && Prepared(env, d)
    ensures RedoPlan(env, f, d, d.state, d.txn.value) == Plan(RedoWrites(env, d), Recovered(d.txn.value.snapshot))
  {
    hide WholePlan, WholeLineWrites, Recorded, Redo, Stable;
    var log := Read(env, d);
    if log.partial {
      var cut := Truncate(log.validBytes);
      StepCut(env, d);
      CutReads(env, d);
      ApplyFew(d, cut, cut);
      WholeSettles(env, f, Apply(d, cut));
    } else {
      WholeSettles(env, f, d);
    }
  }

  /** From a recoverable directory recovery makes exactly the missing writes: it never
      quarantines and never takes the tail-repair branch. */
  lemma CoreSettles<C(!new)>(env: Env<C>, f: Fresh, d: Files<C>)
    requires env.Sound() && Recoverable(env, d)
    ensures CorePlan(env, f, d) == Plan(RedoWrites(env, d), Recovered(Current(env, f, Redo(env, d))))
  {
    LoadAccepted(env, d);
    if Prepared(env, d) {
      LoadPrepared(env, d);
      RedoSettles(env, f, d);
    } else {
      SettledPlan(env, f, d);
    }
  }

  // ---------------------------------------------------------------- the conflict that a re-read payload makes

  /** The log ends with the transaction's event in another spelling. */
  ghost predicate Stranded<C(!new)>(env: Env<C>, d: Files<C>) {
    && d.journal.Absent? && d.txn.Present? && ValidateTxn(env, d.txn.value) == Fine
    && (d.state.Absent? || (d.state.Present? && Acceptable(env, d.state.value)))
    && Read(env, d).LogOk? && LastSequence(Read(env, d).events) == d.txn.value.event.sequence
    && !Recorded(Read(env, d).events, d.txn.value.event)
  }

  /** Recovery cuts a torn tail and sets a stranded directory aside. */
  lemma StrandedPlan<C(!new)>(env: Env<C>, f: Fresh, d: Files<C>)
    requires env.Sound() && Stranded(env, d)
    ensures var cut := Cut(Read(env, d));
            RecoverPlan(env, f, d) == QuarantinePlan(env, f, ApplyAll(d, cut)).After(cut)
    ensures RecoverPlan(env, f, d).outcome == if MarkerValid(env, f) then Blocked(MarkerSnapshot(env, f)) else Refused
    ensures !Recoverable(env, d)
  {
    LoadAccepted(env, d);
    LoadPrepared(env, d);
    assert ApplyAll(d, []) == d;
    var plan := CorePlan(env, f, d);
    assert [] + plan.writes == plan.writes;
  }

  /** A crash in the redo of a fragile directory strands it: after the event is whole in the log and
      before the transaction is removed. */
  ghost predicate RedoGap<C(!new)>(env: Env<C>, d: Files<C>, k: nat, torn: nat)
    requires Recoverable(env, d)
  {
    && Fragile(env, d)
    && var before := |Cut<C>(Read(env, d))|;
       (k == before && torn == |Line(env, d.txn.value.event)|) || before < k < |RedoWrites(env, d)|
  }

  lemma LoggedStrands<C(!new)>(env: Env<C>, d: Files<C>)
    requires env.Sound() && Logged(env, d) && d.journal.Absent?
    requires !Recorded(Read(env, d).events, d.txn.value.event)
    ensures Stranded(env, d) && Stranded(env, Apply(d, PutState(d.txn.value.snapshot)))
  {
    assert Read(env, Apply(d, PutState(d.txn.value.snapshot))) == Read(env, d);
  }

  /** A crash after the append and before the end. */
  lemma LoggedCrash<C(!new)>(env: Env<C>, d: Files<C>, k: nat, torn: nat)
    requires env.Sound() && Logged(env, d) && d.journal.Absent?
    requires !Recorded(Read(env, d).events, d.txn.value.event)
    ensures var ws := FileWrites(d.state, d.txn.value);
            var d' := CrashAt(d, ws, k, torn);
            if k < |ws| then Stranded(env, d') else d' == ApplyAll(d, ws)
  {
    var ws := FileWrites(d.state, d.txn.value);
    LoggedStrands(env, d);
    if k >= |ws| {
      CrashBeyond(d, ws, k, torn);
    } else if k == 1 {
      assert ws[1..] == [DropTxn];
      assert CrashAt(d, ws, 1, torn) == CrashAt(Apply(d, ws[0]), [DropTxn], 0, torn);
    }
  }

  lemma WholeCrash<C(!new)>(env: Env<C>, d: Files<C>, k: nat, torn: nat)
    requires env.Sound() && Fragile(env, d) && !Read(env, d).partial && d.journal.Absent?
    ensures var d' := CrashAt(d, RedoWrites(env, d), k, torn);
            if RedoGap(env, d, k, torn) then Stranded(env, d') else Means(env, Redo(env, d))(d')
  {
    var t := d.txn.value;
    var add, files := Append(Line(env, t.event)), FileWrites(d.state, t);
    var d1 := Apply(d, add);
    assert RedoWrites(env, d) == [add] + files;
    AppendIsLogged(env, d);
    LoggedStrands(env, d1);
    if k > 0 {
      CrashAfter(d, add, files, k, torn);
      LoggedCrash(env, d1, k - 1, torn);
      FilesSettle(env, d1);
    } else if torn == |add.line| {
      assert add.line[..torn] == add.line;
    } else {
      TornAppend(env, d, torn);
    }
  }

  lemma FragileRecoverable<C(!new)>(env: Env<C>, d: Files<C>)
    ensures Fragile(env, d) ==> Prepared(env, d) && Read(env, d).LogOk? && d.txn.Present?
    ensures Prepared(env, d) ==> Recoverable(env, d) && Read(env, d).LogOk?
  {
  }

  /** Every crash in the redo of a recoverable directory either keeps what it means, or strands it, and it
      strands exactly fragile directories, exactly between the append and the removal of the transaction. */
  lemma RedoCrash<C(!new)>(env: Env<C>, d: Files<C>, k: nat, torn: nat)
    requires env.Sound() && Recoverable(env, d) && d.journal.Absent?
    ensures var d' := CrashAt(d, RedoWrites(env, d), k, torn);
            && (if RedoGap(env, d, k, torn) then Stranded(env, d') else Means(env, Redo(env, d))(d'))
            && (!Fragile(env, d) ==> !Fragile(env, d'))
  {
    hide Fragile, Prepared, Recoverable, Redo, RedoWrites, Stranded;
    FragileRecoverable(env, d);
    if !Fragile(env, d) {
      RedoKeeps(env, d, Redo(env, d));
      KeepsCrash(Firmly(env, Redo(env, d)), d, RedoWrites(env, d), k, torn);
    } else if !Read(env, d).partial {
      WholeCrash(env, d, k, torn);
    } else {
      var cut := Truncate(Read(env, d).validBytes);
      var d1 := Apply(d, cut);
      StepCut(env, d);
      FragileRecoverable(env, d1);
      assert |Cut<C>(Read(env, d))| == 1 && |Cut<C>(Read(env, d1))| == 0;
      if k > 0 {
        CrashAfter(d, cut, RedoWrites(env, d1), k, torn);
        WholeCrash(env, d1, k - 1, torn);
      }
    }
  }

  /** The whole redo gets to the target. */
  lemma RedoEnds<C(!new)>(env: Env<C>, d: Files<C>)
    requires env.Sound() && Recoverable(env, d)
    ensures ApplyAll(d, RedoWrites(env, d)) == Redo(env, d) && Settled(env, Redo(env, d))
    decreases Read(env, d).LogOk? && Read(env, d).partial
  {
    hide Prepared, Redo;
    FragileRecoverable(env, d);
    if !Fragile(env, d) {
      RedoKeeps(env, d, Redo(env, d));
    } else if !Read(env, d).partial {
      AppendIsLogged(env, d);
      var add := Append(Line(env, d.txn.value.event));
      FilesSettle(env, Apply(d, add));
      assert RedoWrites(env, d) == [add] + FileWrites(d.state, d.txn.value);
      assert RedoWrites(env, d)[1..] == FileWrites(d.state, d.txn.value);
    } else {
      var cut := Truncate(Read(env, d).validBytes);
      StepCut(env, d);
      RedoEnds(env, Apply(d, cut));
      assert ([cut] + RedoWrites(env, Apply(d, cut)))[1..] == RedoWrites(env, Apply(d, cut));
    }
  }
}
