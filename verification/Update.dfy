/**
 Updates over a crash-safe directory, and the refinement: a run of crashing calls means
 the atomic execution of exactly those updates whose transaction file became durable,
 exactly as long as no crash strands the directory.
 */
module Update {
  import opened Wrappers
  import opened EventLog
  import opened Disk
  import opened Recovery
  import opened Atomicity
  import opened Durability

  /** What an edit makes of the contents, and the event that records it. */
  datatype Edited<C> = Edited(body: C, kind: string, payload: seq<Byte>)

  /** One update: the edit mutates, finalises, validates or isolates, and may refuse. */
  datatype Request<!C> = Request(issueNumber: int, runId: string, edit: C -> Option<Edited<C>>)

  /** The transaction an update prepares, unless the edit or the validator refuses. */
  function NextTxn<C(!new)>(env: Env<C>, f: Fresh, s: Snapshot<C>, r: Request<C>): Option<Txn<C>> {
    match r.edit(s.body)
    case None => None
    case Some(e) =>
      var s' := s.(revision := s.revision + 1, updatedAt := f.now, body := e.body);
      var event := Event(CURRENT_VERSION, f.eventId, s'.revision, f.now, env.repo, r.issueNumber, r.runId, e.kind,
          env.codec.compact(e.payload));
      var t := Txn(CURRENT_VERSION, s', event);
      if ValidateTxn(env, t) == Fine then Some(t) else None
  }

  function Checkpoint<C(!new)>(env: Env<C>, f: Fresh, revision: nat): Event {
    Event(CURRENT_VERSION, f.checkpointId, revision, f.now, env.repo, 0, "", CHECKPOINT_KIND,
          env.Payload(ArchivedThrough(revision)))
  }

  /** Rotation archives the log and leaves one checkpoint event. */
  function RotationWrites<C(!new)>(env: Env<C>, f: Fresh, revision: nat, rotate: bool): seq<Write<C>> {
    if rotate then [ReplaceLog(Line(env, Checkpoint(env, f, revision)))] else []
  }

  ghost function UpdatePlan<C(!new)>(env: Env<C>, f: Fresh, d: Files<C>, r: Request<C>, rotate: bool): Plan<C> {
    var start := RecoverPlan(env, f, d);
    if !start.outcome.Recovered? || start.outcome.snapshot.blocked then Plan(start.writes, Refused)
    else match NextTxn(env, f, start.outcome.snapshot, r)
      case None => Plan(start.writes, Refused)
      case Some(t) =>
        Plan(start.writes + (CommitWrites(env, t) + RotationWrites(env, f, t.snapshot.revision, rotate)),
             Recovered(t.snapshot))
  }

  /** Creates the state file of a directory that has none. */
  ghost function InitializePlan<C(!new)>(env: Env<C>, f: Fresh, d: Files<C>): Plan<C> {
    var start := RecoverPlan(env, f, d);
    if start.outcome.Refused? || !ApplyAll(d, start.writes).state.Absent? then start
    else if env.validate(start.outcome.snapshot) != Fine then Plan(start.writes, Refused)
    else Plan(start.writes + [PutState(start.outcome.snapshot)], start.outcome)
  }

  // ---------------------------------------------------------------- the commit

  /** The settled directory after a commit on top of `d`. */
  ghost function Committed<C(!new)>(env: Env<C>, d: Files<C>, t: Txn<C>): Files<C> {
    d.(state := Present(t.snapshot), log := d.log + Line(env, t.event))
  }

  ghost function Rotated<C(!new)>(env: Env<C>, f: Fresh, d: Files<C>, t: Txn<C>, rotate: bool): Files<C> {
    if rotate then d.(state := Present(t.snapshot), log := Line(env, Checkpoint(env, f, t.snapshot.revision)))
    else Committed(env, d, t)
  }

  lemma NextContinues<C(!new)>(env: Env<C>, f: Fresh, d: Files<C>, r: Request<C>)
    requires env.Sound() && Settled(env, d) && NextTxn(env, f, Current(env, f, d), r).Some?
    ensures var t := NextTxn(env, f, Current(env, f, d), r).value;
            && Prepared(env, Apply(d, PutTxn(Filed(env, t))))
            && !Recorded(Read(env, d).events, Filed(env, t).event)
            && d.state != Present(t.snapshot)
            && env.codec.Compacted(t.event) == t.event
            && Line(env, Filed(env, t).event) == Line(env, t.event)
            && (Stable(env, Filed(env, t).event) <==> env.codec.Survives(t.event.payload))
  {
    var s, t := Current(env, f, d), NextTxn(env, f, Current(env, f, d), r).value;
    var events := Read(env, d).events;
    IndentedLine(env.codec, t.event);
    ContiguousExtend(s.revision, events, Filed(env, t).event);
    assert Read(env, Apply(d, PutTxn(Filed(env, t)))) == Read(env, d);
  }

  /** What is left to do once the transaction file is durable is exactly the redo. */
  lemma CommitIsRedo<C(!new)>(env: Env<C>, f: Fresh, d: Files<C>, r: Request<C>)
    requires env.Sound() && Settled(env, d) && NextTxn(env, f, Current(env, f, d), r).Some?
    ensures var t := NextTxn(env, f, Current(env, f, d), r).value;
            var d1 := Apply(d, PutTxn(Filed(env, t)));
            && Recoverable(env, d1) && Redo(env, d1) == Committed(env, d, t)
            && RedoWrites(env, d1) == CommitWrites(env, t)[1..]
            && (Fragile(env, d1) <==> !env.codec.Survives(t.event.payload))
  {
    var t := NextTxn(env, f, Current(env, f, d), r).value;
    NextContinues(env, f, d, r);
    KeptWhole(env, Apply(d, PutTxn(Filed(env, t))));
  }

  lemma CommitEnds<C(!new)>(env: Env<C>, f: Fresh, d: Files<C>, r: Request<C>)
    requires env.Sound() && Settled(env, d)
    requires NextTxn(env, f, Current(env, f, d), r).Some?
    ensures var t := NextTxn(env, f, Current(env, f, d), r).value;
            ApplyAll(d, CommitWrites(env, t)) == Committed(env, d, t) && Settled(env, Committed(env, d, t))
  {
    hide Redo, RedoWrites, Recoverable, Settled, Committed, Fragile;
    var t := NextTxn(env, f, Current(env, f, d), r).value;
    CommitIsRedo(env, f, d, r);
    RedoEnds(env, Apply(d, PutTxn(Filed(env, t))));
  }

  /** Stopped there, after `k` writes of the commit, the transaction conflicts with its own event: the
      payload does not survive the transaction file, the event is whole in the log, and the transaction is
      still there. */
  predicate CommitGap<C(!new)>(env: Env<C>, t: Txn<C>, k: nat, torn: nat) {
    !env.codec.Survives(t.event.payload) && ((k == 1 && torn == |Line(env, t.event)|) || 1 < k < 4)
  }

  /** From the moment the transaction file is durable every crash means the new directory, or strands it,
      exactly in the gap. */
  lemma CommitCrashes<C(!new)>(env: Env<C>, f: Fresh, d: Files<C>, r: Request<C>, k: nat, torn: nat)
    requires env.Sound() && Settled(env, d) && d.journal.Absent?
    requires NextTxn(env, f, Current(env, f, d), r).Some? && k > 0
    ensures var t := NextTxn(env, f, Current(env, f, d), r).value;
            var d' := CrashAt(Apply(d, PutTxn(Filed(env, t))), CommitWrites(env, t)[1..], k - 1, torn);
            && (if CommitGap(env, t, k, torn) then Stranded(env, d') else Denotes(env, Committed(env, d, t))(d'))
            && (env.codec.Survives(t.event.payload) ==> Firm(env, d'))
  {
    hide Redo, RedoWrites, Recoverable, Settled, Stranded, NextTxn;
    var t := NextTxn(env, f, Current(env, f, d), r).value;
    var d1, target := Apply(d, PutTxn(Filed(env, t))), Committed(env, d, t);
    NextContinues(env, f, d, r);
    CommitIsRedo(env, f, d, r);
    SettledReads(env, d, Filed(env, t));
    CommitGaps(env, d1, t, k, torn);
    RedoCrash(env, d1, k - 1, torn);
    MeansDenotes(env, target);
    RedoQuiet(env, d1);
    CrashSameJournal(d1, RedoWrites(env, d1), k - 1, torn);
  }

  lemma SettledReads<C(!new)>(env: Env<C>, d: Files<C>, t: Txn<C>)
    requires Settled(env, d)
    ensures Read(env, Apply(d, PutTxn(t))).LogOk? && !Read(env, Apply(d, PutTxn(t))).partial
  {
  }

  lemma CommitGaps<C(!new)>(env: Env<C>, d: Files<C>, t: Txn<C>, k: nat, torn: nat)
    requires Recoverable(env, d) && RedoWrites(env, d) == CommitWrites(env, t)[1..] && k > 0
    requires d.txn == Present(Filed(env, t)) && Line(env, Filed(env, t).event) == Line(env, t.event)
    requires Read(env, d).LogOk? && !Read(env, d).partial
    requires Fragile(env, d) <==> !env.codec.Survives(t.event.payload)
    ensures RedoGap(env, d, k - 1, torn) <==> CommitGap(env, t, k, torn)
  {
    hide RedoWrites, Fragile, Recoverable;
    assert Cut<C>(Read(env, d)) == [];
  }

  /** A commit adds exactly one event and one revision. */
  lemma CommitAddsOne<C(!new)>(env: Env<C>, f: Fresh, d: Files<C>, r: Request<C>)
    requires env.Sound() && Settled(env, d) && NextTxn(env, f, Current(env, f, d), r).Some?
    ensures var s, t := Current(env, f, d), NextTxn(env, f, Current(env, f, d), r).value;
            && Read(env, Committed(env, d, t)) == LogOk(Read(env, d).events + [t.event], |Committed(env, d, t).log|,
               false)
            && t.event.sequence == t.snapshot.revision == s.revision + 1
  {
    hide Env.Sound, Parse, Prepared, Recorded, Stable, Contiguous, ValidateTxn;
    var t := NextTxn(env, f, Current(env, f, d), r).value;
    SoundCodec(env);
    AppendReads(env, d, t.event);
    NextContinues(env, f, d, r);
  }

  lemma SoundCodec<C(!new)>(env: Env<C>)
    requires env.Sound()
    ensures env.codec.Faithful()
  {
  }

  lemma RotationSettles<C(!new)>(env: Env<C>, f: Fresh, d: Files<C>, t: Txn<C>, rotate: bool)
    requires env.Sound() && Settled(env, Committed(env, d, t)) && d.journal.Absent? && d.txn.Absent?
    requires ValidateTxn(env, t) == Fine
    ensures var target := Rotated(env, f, d, t, rotate);
            Settled(env, target) && Denotes(env, target)(target) && Firm(env, target)
  {
    var e := Checkpoint(env, f, t.snapshot.revision);
    ParseLine(env.codec, env.repo, e);
    UnjournalledDenotes(env, Rotated(env, f, d, t, rotate), Rotated(env, f, d, t, rotate));
  }

  lemma RotationCrash<C(!new)>(env: Env<C>, f: Fresh, d: Files<C>, t: Txn<C>, rotate: bool, k: nat, torn: nat)
    requires env.Sound() && Settled(env, Committed(env, d, t)) && d.journal.Absent? && d.txn.Absent?
    requires ValidateTxn(env, t) == Fine
    ensures var d1, ws := Committed(env, d, t), RotationWrites(env, f, t.snapshot.revision, rotate);
            && Denotes(env, if k == 0 then d1 else Rotated(env, f, d, t, rotate))(CrashAt(d1, ws, k, torn))
            && Firm(env, CrashAt(d1, ws, k, torn))
  {
    hide Denotes, Durable, Target, Settled, ValidateTxn, Read, Firm;
    RotationSettles(env, f, d, t, false);
    RotationSettles(env, f, d, t, rotate);
  }

  /** The request commits on the directory that `d` denotes. */
  ghost predicate Commits<C(!new)>(env: Env<C>, f: Fresh, d: Files<C>, r: Request<C>)
    requires Durable(env, d)
  {
    var s := Current(env, f, Target(env, d));
    !s.blocked && NextTxn(env, f, s, r).Some?
  }

  /** The new directory after `k` writes of the commit: rotation follows the fourth. */
  ghost function NewAfter<C(!new)>(env: Env<C>, f: Fresh, d: Files<C>, t: Txn<C>, rotate: bool, k: nat): Files<C> {
    if k <= 4 then Committed(env, d, t) else Rotated(env, f, d, t, rotate)
  }

  /** A crash leaves a stranded directory in the gap, and one that denotes `target` everywhere else. */
  ghost predicate Lands<C(!new)>(env: Env<C>, gap: bool, target: Files<C>, d: Files<C>) {
    if gap then Stranded(env, d) else Denotes(env, target)(d)
  }

  lemma CommitCrash<C(!new)>(env: Env<C>, f: Fresh, d: Files<C>, r: Request<C>, rotate: bool, k: nat, torn: nat)
    requires env.Sound() && Settled(env, d) && d.journal.Absent?
    requires NextTxn(env, f, Current(env, f, d), r).Some? && k > 0
    ensures var t := NextTxn(env, f, Current(env, f, d), r).value;
            var ws := CommitWrites(env, t)[1..] + RotationWrites(env, f, t.snapshot.revision, rotate);
            var d' := CrashAt(Apply(d, PutTxn(Filed(env, t))), ws, k - 1, torn);
            && Lands(env, CommitGap(env, t, k, torn), NewAfter(env, f, d, t, rotate, k), d')
            && (env.codec.Survives(t.event.payload) ==> Firm(env, d'))
  {
    hide *;
    var t := NextTxn(env, f, Current(env, f, d), r).value;
    var commit, rotation := CommitWrites(env, t), RotationWrites(env, f, t.snapshot.revision, rotate);
    var d1 := Apply(d, PutTxn(Filed(env, t)));
    CommitShape(env, d, t);
    CommitEnds(env, f, d, r);
    CommitCrashes(env, f, d, r, k, torn);
    CrashConcat(d1, commit[1..], rotation, k - 1, torn);
    NewAfterIs(env, f, d, t, rotate, k);
    GapIsEarly(env, t, k, torn);
    LandsIs(env, CommitGap(env, t, k, torn), NewAfter(env, f, d, t, rotate, k),
            CrashAt(d1, commit[1..] + rotation, k - 1, torn));
    if k >= 4 {
      NextIsValid(env, f, d, r);
      RotationCrash(env, f, d, t, rotate, k - 4, torn);
    }
  }

  lemma CommitShape<C(!new)>(env: Env<C>, d: Files<C>, t: Txn<C>)
    ensures |CommitWrites(env, t)| == 4
    ensures ApplyAll(d, CommitWrites(env, t)) == ApplyAll(Apply(d, PutTxn(Filed(env, t))), CommitWrites(env, t)[1..])
  {
  }

  lemma NewAfterIs<C(!new)>(env: Env<C>, f: Fresh, d: Files<C>, t: Txn<C>, rotate: bool, k: nat)
    ensures NewAfter(env, f, d, t, rotate, k) == if k <= 4 then Committed(env, d, t) else Rotated(env, f, d, t, rotate)
  {
  }

  lemma GapIsEarly<C(!new)>(env: Env<C>, t: Txn<C>, k: nat, torn: nat)
    ensures CommitGap(env, t, k, torn) ==> k < 4
  {
  }

  lemma LandsIs<C(!new)>(env: Env<C>, gap: bool, target: Files<C>, d: Files<C>)
    ensures Lands(env, gap, target, d) == if gap then Stranded(env, d) else Denotes(env, target)(d)
  {
    hide Stranded, Denotes;
  }

  lemma NextIsValid<C(!new)>(env: Env<C>, f: Fresh, d: Files<C>, r: Request<C>)
    requires NextTxn(env, f, Current(env, f, d), r).Some? && Settled(env, d)
    ensures ValidateTxn(env, NextTxn(env, f, Current(env, f, d), r).value) == Fine && d.txn.Absent?
  {
  }

  ghost function UpdateTail<C(!new)>(env: Env<C>, f: Fresh, t: Txn<C>, rotate: bool): seq<Write<C>> {
    CommitWrites(env, t)[1..] + RotationWrites(env, f, t.snapshot.revision, rotate)
  }

  /** The transaction an update of the directory commits. */
  ghost function Committing<C(!new)>(env: Env<C>, f: Fresh, d: Files<C>, r: Request<C>): Txn<C>
    requires Durable(env, d) && Commits(env, f, d, r)
  {
    NextTxn(env, f, Current(env, f, Target(env, d)), r).value
  }

  lemma UpdateShape<C(!new)>(env: Env<C>, f: Fresh, d: Files<C>, r: Request<C>, rotate: bool)
    requires env.Sound() && Durable(env, d) && Commits(env, f, d, r)
    ensures var t := Committing(env, f, d, r);
            UpdatePlan(env, f, d, r, rotate) ==
            Plan(RecoverWrites(env, d) + ([PutTxn(Filed(env, t))] + UpdateTail(env, f, t, rotate)),
                Recovered(t.snapshot))
  {
    RecoverSettles(env, f, d);
    var t := Committing(env, f, d, r);
    HeadTail(CommitWrites(env, t), RotationWrites(env, f, t.snapshot.revision, rotate));
  }

  /** The old directory, up to and including the write of the transaction file; then the new one. */
  ghost function OldOrNew<C(!new)>(env: Env<C>, f: Fresh, d: Files<C>, r: Request<C>, rotate: bool, k: nat): Files<C>
    requires Durable(env, d) && Commits(env, f, d, r)
  {
    var target, n := Target(env, d), |RecoverWrites(env, d)|;
    if k <= n then target else NewAfter(env, f, target, Committing(env, f, d, r), rotate, k - n)
  }

  /** Stopped there, an update leaves a stranded directory: in the gap of the recovery it starts with, or in
      the gap of its own commit. */
  ghost predicate UpdateGap<C(!new)>(env: Env<C>, f: Fresh, d: Files<C>, r: Request<C>, k: nat, torn: nat)
    requires Durable(env, d) && Commits(env, f, d, r)
  {
    var n := |RecoverWrites(env, d)|;
    RecoverGap(env, d, k, torn) || (k > n && CommitGap(env, Committing(env, f, d, r), k - n, torn))
  }

  /** The payload an update records, if it commits, survives the transaction file. */
  ghost predicate RecordsPlainly<C(!new)>(env: Env<C>, r: Request<C>) {
    forall body :: r.edit(body).Some? ==> env.codec.Survives(r.edit(body).value.payload)
  }

  lemma PlainSurvives<C(!new)>(env: Env<C>, f: Fresh, s: Snapshot<C>, r: Request<C>)
    requires env.Sound() && RecordsPlainly(env, r) && NextTxn(env, f, s, r).Some?
    ensures env.codec.Survives(NextTxn(env, f, s, r).value.event.payload)
  {
  }

  lemma GapInside<C(!new)>(env: Env<C>, d: Files<C>, k: nat, torn: nat)
    requires Durable(env, d) && RecoverGap(env, d, k, torn)
    ensures k < |RecoverWrites(env, d)|
  {
  }

  lemma HeadLands<C(!new)>(env: Env<C>, d: Files<C>, w: Write<C>, ws: seq<Write<C>>, torn: nat)
    requires Settled(env, d) && d.journal.Absent? && !w.Append?
    ensures var d' := CrashAt(d, [w] + ws, 0, torn); Lands(env, false, d, d') && Firm(env, d')
  {
    UnjournalledDenotes(env, d, d);
    SettledFirm(env, d);
  }

  lemma GapLater<C(!new)>(env: Env<C>, f: Fresh, d: Files<C>, r: Request<C>, k: nat, torn: nat)
    requires Durable(env, d) && Commits(env, f, d, r) && k >= |RecoverWrites(env, d)|
    ensures var n := |RecoverWrites(env, d)|;
            UpdateGap(env, f, d, r, k, torn) <==> k > n && CommitGap(env, Committing(env, f, d, r), k - n, torn)
  {
    hide CommitGap, Committing, RecoverGap, RecoverWrites;
    if RecoverGap(env, d, k, torn) { GapInside(env, d, k, torn); }
  }

  lemma TailCrash<C(!new)>(env: Env<C>, f: Fresh, d: Files<C>, r: Request<C>, rotate: bool, k: nat, torn: nat)
    requires env.Sound() && Durable(env, d) && Commits(env, f, d, r) && k >= |RecoverWrites(env, d)|
    ensures var t, n := Committing(env, f, d, r), |RecoverWrites(env, d)|;
            var d' := CrashAt(Target(env, d), [PutTxn(Filed(env, t))] + UpdateTail(env, f, t, rotate), k - n, torn);
            && Lands(env, UpdateGap(env, f, d, r, k, torn), OldOrNew(env, f, d, r, rotate, k), d')
            && (k == n || env.codec.Survives(t.event.payload) ==> Firm(env, d'))
  {
    hide *;
    var target, n := Target(env, d), |RecoverWrites(env, d)|;
    var t := Committing(env, f, d, r);
    RecoverSettles(env, NO_NAMES, d);
    CommittingIs(env, f, d, r);
    GapLater(env, f, d, r, k, torn);
    OldOrNewIs(env, f, d, r, rotate, k);
    if k > n {
      CommitCrash(env, f, target, r, rotate, k - n, torn);
      TailIs(env, f, t, rotate);
      CrashAfter(target, PutTxn(Filed(env, t)), UpdateTail(env, f, t, rotate), k - n, torn);
    } else {
      HeadLands(env, target, PutTxn(Filed(env, t)), UpdateTail(env, f, t, rotate), torn);
    }
  }

  lemma CommittingIs<C(!new)>(env: Env<C>, f: Fresh, d: Files<C>, r: Request<C>)
    requires Durable(env, d) && Commits(env, f, d, r)
    ensures NextTxn(env, f, Current(env, f, Target(env, d)), r) == Some(Committing(env, f, d, r))
  {
    hide Target;
  }

  lemma TailIs<C(!new)>(env: Env<C>, f: Fresh, t: Txn<C>, rotate: bool)
    ensures UpdateTail(env, f, t, rotate) == CommitWrites(env, t)[1..]
            + RotationWrites(env, f, t.snapshot.revision, rotate)
  {
  }

  lemma OldOrNewIs<C(!new)>(env: Env<C>, f: Fresh, d: Files<C>, r: Request<C>, rotate: bool, k: nat)
    requires Durable(env, d) && Commits(env, f, d, r)
    ensures var n := |RecoverWrites(env, d)|;
            OldOrNew(env, f, d, r, rotate, k) ==
            if k <= n then Target(env, d) else NewAfter(env, f, Target(env, d), Committing(env, f, d, r), rotate, k - n)
  {
    hide Target, NewAfter, RecoverWrites, Committing;
  }

  lemma SettledFirm<C(!new)>(env: Env<C>, d: Files<C>)
    requires Settled(env, d) && d.journal.Absent?
    ensures Firm(env, d)
  {
    UnjournalledDenotes(env, d, d);
  }

  /** Crash atomicity of an update: after any crash outside the gap the directory means exactly the old
      contents, or exactly the new ones, and the new ones if and only if the transaction file had been
      written; a crash in the gap strands it. */
  lemma UpdateAtomic<C(!new)>(env: Env<C>, f: Fresh, d: Files<C>, r: Request<C>, rotate: bool, k: nat, torn: nat)
    requires env.Sound() && Durable(env, d) && Commits(env, f, d, r)
    ensures var d' := CrashAt(d, UpdatePlan(env, f, d, r, rotate).writes, k, torn);
            && Lands(env, UpdateGap(env, f, d, r, k, torn), OldOrNew(env, f, d, r, rotate, k), d')
            && (Firm(env, d) && RecordsPlainly(env, r) ==> Firm(env, d'))
  {
    hide Denotes, Durable, Target, Settled, Stranded, Firm, RecoverGap, RecoverPlan, NextTxn, CommitWrites,
         RotationWrites, CommitGap, NewAfter, RecordsPlainly;
    var start, t := RecoverWrites(env, d), Committing(env, f, d, r);
    RecoverSettles(env, f, d);
    UpdateShape(env, f, d, r, rotate);
    CrashConcat(d, start, [PutTxn(Filed(env, t))] + UpdateTail(env, f, t, rotate), k, torn);
    if RecordsPlainly(env, r) { PlainSurvives(env, f, Current(env, f, Target(env, d)), r); }
    if k < |start| {
      RecoverCrash(env, d, k, torn);
    } else {
      TailCrash(env, f, d, r, rotate, k, torn);
    }
  }

  /** The gap is exactly where the next recovery, left alone, does not succeed. */
  lemma UpdateExactly<C(!new)>(env: Env<C>, f: Fresh, d: Files<C>, r: Request<C>, rotate: bool, k: nat, torn: nat)
    requires env.Sound() && Durable(env, d) && Commits(env, f, d, r)
    ensures Recovers(env, CrashAt(d, UpdatePlan(env, f, d, r, rotate).writes, k, torn))
            <==> !UpdateGap(env, f, d, r, k, torn)
  {
    hide UpdatePlan, UpdateGap, OldOrNew, Recovers, Stranded, Durable, Target;
    var d' := CrashAt(d, UpdatePlan(env, f, d, r, rotate).writes, k, torn);
    UpdateAtomic(env, f, d, r, rotate, k, torn);
    LandsRecovers(env, UpdateGap(env, f, d, r, k, torn), OldOrNew(env, f, d, r, rotate, k), d');
  }

  lemma LandsRecovers<C(!new)>(env: Env<C>, gap: bool, target: Files<C>, d: Files<C>)
    requires env.Sound() && Lands(env, gap, target, d)
    ensures Recovers(env, d) <==> !gap
    ensures !gap ==> Durable(env, d)
  {
    hide Recovers, Stranded, Durable, Target;
    if gap { StrandedFails(env, d); } else { DurableRecovers(env, d); }
  }

  /** An update that refuses has done no more than recover. */
  lemma RefusalKeeps<C(!new)>(env: Env<C>, f: Fresh, d: Files<C>, r: Request<C>, rotate: bool, k: nat, torn: nat)
    requires env.Sound() && Durable(env, d) && !Commits(env, f, d, r)
    ensures UpdatePlan(env, f, d, r, rotate) == Plan(RecoverWrites(env, d), Refused)
    ensures Lands(env, RecoverGap(env, d, k, torn), Target(env, d), CrashAt(d, RecoverWrites(env, d), k, torn))
  {
    RecoverSettles(env, f, d);
    RecoverCrash(env, d, k, torn);
  }

  // ---------------------------------------------------------------- what an update records

  /** The event tells who asked for which edit, and when it took effect. */
  predicate Tells<C(!new)>(env: Env<C>, f: Fresh, r: Request<C>, edited: Edited<C>, revision: nat, e: Event) {
    && e.issueNumber == r.issueNumber && e.runId == r.runId
    && e.kind == edited.kind && e.payload == env.codec.compact(edited.payload)
    && e.timestamp == f.now && e.sequence == revision && e.eventId == f.eventId && e.repoId == env.repo
  }

  /** One event about the end of the log replaces everything before it. */
  predicate Archives<C(!new)>(env: Env<C>, f: Fresh, revision: nat, e: Event) {
    && e.kind == CHECKPOINT_KIND && e.sequence == revision && e.eventId == f.checkpointId
    && e.payload == env.codec.compact(env.note(ArchivedThrough(revision)))
    && e.timestamp == f.now && e.repoId == env.repo && e.issueNumber == 0 && e.runId == ""
  }

  /** An update commits exactly when the directory is not blocked, the edit succeeds, and the validator
      accepts what it makes of the contents. */
  lemma CommitsExactly<C(!new)>(env: Env<C>, f: Fresh, d: Files<C>, r: Request<C>)
    requires env.Sound() && Durable(env, d)
    ensures var s := Current(env, f, Target(env, d));
            Commits(env, f, d, r) <==>
            !s.blocked && r.edit(s.body).Some? && env.validate(s.(body := r.edit(s.body).value.body)) == Fine
  {
    hide Target, Durable, Settled, NextTxn;
    RecoverSettles(env, f, d);
    CurrentIsOurs(env, f, Target(env, d));
    NextExactly(env, f, Current(env, f, Target(env, d)), r);
  }

  lemma NextExactly<C(!new)>(env: Env<C>, f: Fresh, s: Snapshot<C>, r: Request<C>)
    requires env.Sound() && s.repoId == env.repo && s.version == CURRENT_VERSION
    ensures NextTxn(env, f, s, r).Some? <==>
            r.edit(s.body).Some? && env.validate(s.(body := r.edit(s.body).value.body)) == Fine
  {
    hide ValidateTxn, Env.Sound;
    if r.edit(s.body).Some? {
      var next := s.(body := r.edit(s.body).value.body);
      var event := Event(CURRENT_VERSION, f.eventId, s.revision + 1, f.now, env.repo, r.issueNumber, r.runId,
          r.edit(s.body).value.kind, env.codec.compact(r.edit(s.body).value.payload));
      TxnValidates(env, next, event);
    }
  }

  lemma TxnValidates<C(!new)>(env: Env<C>, s: Snapshot<C>, e: Event)
    requires env.Sound() && s.repoId == e.repoId == env.repo && s.version == e.version == CURRENT_VERSION
    requires e.sequence == s.revision + 1
    ensures ValidateTxn(env, Txn(CURRENT_VERSION, Stamped(s, e.sequence, e.timestamp), e)) == env.validate(s)
  {
  }

  lemma CurrentIsOurs<C(!new)>(env: Env<C>, f: Fresh, d: Files<C>)
    requires env.Sound() && Settled(env, d)
    ensures var s := Current(env, f, d); s.repoId == env.repo && s.version == CURRENT_VERSION
  {
  }

  lemma NextTells<C(!new)>(env: Env<C>, f: Fresh, s: Snapshot<C>, r: Request<C>)
    requires env.Sound() && NextTxn(env, f, s, r).Some?
    ensures r.edit(s.body).Some?
    ensures var t, edited := NextTxn(env, f, s, r).value, r.edit(s.body).value;
            && t.snapshot == s.(revision := s.revision + 1, updatedAt := f.now, body := edited.body)
            && Tells(env, f, r, edited, s.revision + 1, t.event)
  {
  }

  lemma RotatedReads<C(!new)>(env: Env<C>, f: Fresh, d: Files<C>, t: Txn<C>)
    requires env.Sound()
    ensures var log := Read(env, Rotated(env, f, d, t, true));
            log.LogOk? && |log.events| == 1 && Archives(env, f, t.snapshot.revision, log.events[0])
  {
    ParseLine(env.codec, env.repo, Checkpoint(env, f, t.snapshot.revision));
  }

  lemma UpdateEnds<C(!new)>(env: Env<C>, f: Fresh, d: Files<C>, r: Request<C>, rotate: bool)
    requires env.Sound() && Durable(env, d) && Commits(env, f, d, r)
    ensures var t, plan := Committing(env, f, d, r), UpdatePlan(env, f, d, r, rotate);
            && ApplyAll(d, plan.writes) == Rotated(env, f, Target(env, d), t, rotate)
            && Append(Line(env, t.event)) in plan.writes && plan.outcome == Recovered(t.snapshot)
  {
    hide *;
    var target, t := Target(env, d), Committing(env, f, d, r);
    var rotation := RotationWrites(env, f, t.snapshot.revision, rotate);
    RecoverSettles(env, f, d);
    CommittingIs(env, f, d, r);
    UpdateShape(env, f, d, r, rotate);
    TailIs(env, f, t, rotate);
    CommitHead(env, t, rotation);
    CommitEnds(env, f, target, r);
    ApplyConcat(d, RecoverWrites(env, d), CommitWrites(env, t) + rotation);
    ApplyConcat(target, CommitWrites(env, t), rotation);
    RotationApplies(env, f, target, t, rotate);
  }

  lemma CommitHead<C(!new)>(env: Env<C>, t: Txn<C>, rotation: seq<Write<C>>)
    ensures [PutTxn(Filed(env, t))] + (CommitWrites(env, t)[1..] + rotation) == CommitWrites(env, t) + rotation
    ensures Append(Line(env, t.event)) in CommitWrites(env, t)
  {
    assert CommitWrites(env, t)[1] == Append(Line(env, t.event));
  }

  lemma RotationApplies<C(!new)>(env: Env<C>, f: Fresh, d: Files<C>, t: Txn<C>, rotate: bool)
    ensures ApplyAll(Committed(env, d, t), RotationWrites(env, f, t.snapshot.revision, rotate))
            == Rotated(env, f, d, t, rotate)
  {
    ApplyFew(Committed(env, d, t), ReplaceLog(Line(env, Checkpoint(env, f, t.snapshot.revision))), DropTxn);
  }

  /** The snapshot holds what the edit made of the contents of `s`. */
  ghost predicate Holding<C(!new)>(
      env: Env<C>, f: Fresh, s: Snapshot<C>, edited: Edited<C>, state: Stored<Snapshot<C>>) {
    && state.Present? && state.value.body == edited.body && state.value.revision == s.revision + 1
    && state.value.updatedAt == f.now && state.value.repoId == env.repo && !state.value.blocked
  }

  /** The log holds one more event, which tells of the update, or only the checkpoint of a rotation. */
  ghost predicate Logs<C(!new)>(
      env: Env<C>, f: Fresh, r: Request<C>, edited: Edited<C>, revision: nat, rotate: bool, was: LogRead,
      log: LogRead) {
    && was.LogOk? && log.LogOk?
    && if rotate then |log.events| == 1 && Archives(env, f, revision, log.events[0])
       else |log.events| == |was.events| + 1 && log.events[..|was.events|] == was.events
            && Tells(env, f, r, edited, revision, log.events[|was.events|])
  }

  /** An event that tells of the update is appended, whatever a rotation does to the log afterwards. */
  ghost predicate Appends<C(!new)>(
      env: Env<C>, f: Fresh, r: Request<C>, edited: Edited<C>, revision: nat, ws: seq<Write<C>>) {
    exists e :: Append(Line(env, e)) in ws && Tells(env, f, r, edited, revision, e)
  }

  /** An update that finishes leaves the edited contents one revision up, and appends one event that names its
      Issue and run, what it did, and when; a rotation then leaves one checkpoint in place of the log. */
  lemma UpdateRecords<C(!new)>(env: Env<C>, f: Fresh, d: Files<C>, r: Request<C>, rotate: bool)
    requires env.Sound() && Durable(env, d) && Commits(env, f, d, r)
    ensures r.edit(Current(env, f, Target(env, d)).body).Some?
    ensures var s, plan := Current(env, f, Target(env, d)), UpdatePlan(env, f, d, r, rotate);
            var edited, d' := r.edit(s.body).value, ApplyAll(d, plan.writes);
            && Holding(env, f, s, edited, d'.state) && plan.outcome == Recovered(d'.state.value)
            && Logs(env, f, r, edited, s.revision + 1, rotate, Read(env, Target(env, d)), Read(env, d'))
            && Appends(env, f, r, edited, s.revision + 1, plan.writes)
  {
    hide *;
    var target, t := Target(env, d), Committing(env, f, d, r);
    var s, plan := Current(env, f, target), UpdatePlan(env, f, d, r, rotate);
    RecoverSettles(env, f, d);
    CommittingIs(env, f, d, r);
    UpdateEnds(env, f, d, r, rotate);
    NextTells(env, f, s, r);
    CurrentIsOurs(env, f, target);
    NotBlocked(env, f, d, r);
    RotatedState(env, f, target, t, rotate);
    var edited := r.edit(s.body).value;
    assert Holding(env, f, s, edited, ApplyAll(d, plan.writes).state) by { HoldingIs(env, f, s, edited, t.snapshot); }
    RotatedLogs(env, f, target, r, rotate);
    AppendsIs(env, f, r, edited, s.revision + 1, plan.writes, t.event);
  }

  lemma HoldingIs<C(!new)>(env: Env<C>, f: Fresh, s: Snapshot<C>, edited: Edited<C>, next: Snapshot<C>)
    requires next == s.(revision := s.revision + 1, updatedAt := f.now, body := edited.body)
    requires s.repoId == env.repo && !s.blocked
    ensures Holding(env, f, s, edited, Present(next))
  {
  }

  lemma AppendsIs<C(!new)>(
      env: Env<C>, f: Fresh, r: Request<C>, edited: Edited<C>, revision: nat, ws: seq<Write<C>>, e: Event)
    requires Append(Line(env, e)) in ws && Tells(env, f, r, edited, revision, e)
    ensures Appends(env, f, r, edited, revision, ws)
  {
    hide Tells;
  }

  lemma RotatedLogs<C(!new)>(env: Env<C>, f: Fresh, d: Files<C>, r: Request<C>, rotate: bool)
    requires env.Sound() && Settled(env, d) && NextTxn(env, f, Current(env, f, d), r).Some?
    ensures var s, t := Current(env, f, d), NextTxn(env, f, Current(env, f, d), r).value;
            && r.edit(s.body).Some?
            && Logs(env, f, r, r.edit(s.body).value, s.revision + 1, rotate, Read(env, d),
                    Read(env, Rotated(env, f, d, t, rotate)))
  {
    hide Env.Sound, Settled, NextTxn, Tells, Archives, Committed, Rotated, Parse, Line;
    var t := NextTxn(env, f, Current(env, f, d), r).value;
    NextTells(env, f, Current(env, f, d), r);
    CommitAddsOne(env, f, d, r);
    RotatedReads(env, f, d, t);
    RotatedState(env, f, d, t, rotate);
    SettledLog(env, d);
  }

  lemma SettledLog<C(!new)>(env: Env<C>, d: Files<C>)
    requires Settled(env, d)
    ensures Read(env, d).LogOk?
  {
  }

  lemma NotBlocked<C(!new)>(env: Env<C>, f: Fresh, d: Files<C>, r: Request<C>)
    requires env.Sound() && Durable(env, d) && Commits(env, f, d, r)
    ensures !Current(env, f, Target(env, d)).blocked
  {
    hide Target;
  }

  lemma RotatedState<C(!new)>(env: Env<C>, f: Fresh, d: Files<C>, t: Txn<C>, rotate: bool)
    ensures Rotated(env, f, d, t, rotate).state == Present(t.snapshot)
    ensures !rotate ==> Rotated(env, f, d, t, rotate) == Committed(env, d, t)
  {
  }

  /** Initialisation creates the state of an empty repository exactly where there is none and the validator
      accepts it, and does nothing else beyond a recovery. */
  lemma InitializeCreates<C(!new)>(env: Env<C>, f: Fresh, d: Files<C>)
    requires env.Sound() && Durable(env, d)
    ensures var target, plan := Target(env, d), InitializePlan(env, f, d);
            var s := Current(env, f, target);
            && (target.state.Absent? ==>
                  s.revision == 0 && s.body == env.empty && !s.blocked && s.repoId == env.repo && s.updatedAt == f.now)
            && (target.state.Absent? && env.validate(s) == Fine ==>
                  ApplyAll(d, plan.writes) == target.(state := Present(s)) && plan.outcome == Recovered(s))
            && (target.state.Absent? && env.validate(s) != Fine ==>
                  ApplyAll(d, plan.writes) == target && plan.outcome.Refused?)
            && (!target.state.Absent? ==> ApplyAll(d, plan.writes) == target && plan.outcome == Recovered(s))
  {
    hide Redo, Recoverable, Durable, Settled, RecoverWrites;
    RecoverSettles(env, f, d);
    var target := Target(env, d);
    var s := Current(env, f, target);
    ApplyConcat(d, RecoverWrites(env, d), [PutState(s)]);
    ApplyFew(target, PutState(s), DropTxn);
  }

  // ---------------------------------------------------------------- the atomic store

  /** What callers of the store can observe of a directory. */
  datatype Contents<C> = Contents(revision: nat, blocked: bool, body: C)

  function ContentsOf<C(!new)>(env: Env<C>, target: Files<C>): Contents<C> {
    if target.state.Present?
    then Contents(target.state.value.revision, target.state.value.blocked, target.state.value.body)
    else Contents(0, false, env.empty)
  }

  /** The atomic store: an update replaces the contents and adds one to the revision. */
  function AtomicStep<C>(c: Contents<C>, r: Request<C>): Contents<C> {
    match r.edit(c.body)
    case None => c
    case Some(e) => Contents(c.revision + 1, c.blocked, e.body)
  }

  function AtomicRun<C>(c: Contents<C>, rs: seq<Request<C>>): Contents<C>
    decreases |rs|
  {
    if rs == [] then c else AtomicRun(AtomicStep(c, rs[0]), rs[1..])
  }

  datatype Call<!C> =
    | Load(names: Fresh)
    | Initialize(names: Fresh)
    | Change(names: Fresh, request: Request<C>, rotate: bool)

  /** A call that makes at most `writes` of its writes before the process stops. */
  datatype Attempt<!C> = Attempt(call: Call<C>, writes: nat, torn: nat)

  ghost function CallPlan<C(!new)>(env: Env<C>, d: Files<C>, c: Call<C>): Plan<C> {
    match c
    case Load(f) => RecoverPlan(env, f, d)
    case Initialize(f) => InitializePlan(env, f, d)
    case Change(f, r, rotate) => UpdatePlan(env, f, d, r, rotate)
  }

  ghost function Attempted<C(!new)>(env: Env<C>, d: Files<C>, a: Attempt<C>): Files<C> {
    CrashAt(d, CallPlan(env, d, a.call).writes, a.writes, a.torn)
  }

  /** The updates of an attempt that take effect: one, when its transaction file was written. */
  ghost function Effect<C(!new)>(env: Env<C>, d: Files<C>, a: Attempt<C>): seq<Request<C>>
    requires Durable(env, d)
  {
    if a.call.Change? && Commits(env, a.call.names, d, a.call.request) && a.writes > |RecoverWrites(env, d)|
    then [a.call.request] else []
  }

  /** The directories with the given contents. */
  ghost function Holds<C(!new)>(env: Env<C>, c: Contents<C>): Files<C> -> bool {
    d => Durable(env, d) && ContentsOf(env, Target(env, d)) == c
  }

  /** A crash leaves a stranded directory in the gap, and one with contents `c` everywhere else. */
  ghost predicate Leaves<C(!new)>(env: Env<C>, gap: bool, c: Contents<C>, d: Files<C>) {
    if gap then Stranded(env, d) else Holds(env, c)(d)
  }

  lemma CreateKeepsContents<C(!new)>(env: Env<C>, f: Fresh, d: Files<C>, k: nat, torn: nat)
    requires env.Sound() && Settled(env, d) && d.journal.Absent?
    requires d.state.Absent? && env.validate(env.EmptySnapshot(f.now)) == Fine
    ensures var d' := CrashAt(d, [PutState(env.EmptySnapshot(f.now))], k, torn);
            Leaves(env, false, ContentsOf(env, d), d') && Firm(env, d')
  {
    var create := PutState(env.EmptySnapshot(f.now));
    var created := Apply(d, create);
    SettledFirm(env, d);
    UnjournalledDenotes(env, d, d);
    assert Read(env, created) == Read(env, d);
    UnjournalledDenotes(env, created, created);
    SettledFirm(env, created);
    assert [create][1..] == [];
  }

  lemma LandsHolds<C(!new)>(env: Env<C>, gap: bool, target: Files<C>, d: Files<C>)
    requires Lands(env, gap, target, d)
    ensures Leaves(env, gap, ContentsOf(env, target), d)
  {
  }

  lemma RecoverHolds<C(!new)>(env: Env<C>, d: Files<C>, k: nat, torn: nat)
    requires env.Sound() && Durable(env, d)
    ensures var d' := CrashAt(d, RecoverWrites(env, d), k, torn);
            && Leaves(env, RecoverGap(env, d, k, torn), ContentsOf(env, Target(env, d)), d')
            && (Firm(env, d) ==> Firm(env, d'))
  {
    hide Durable, Target, Firm, RecoverGap;
    RecoverCrash(env, d, k, torn);
  }

  lemma InitializeAtomic<C(!new)>(env: Env<C>, f: Fresh, d: Files<C>, k: nat, torn: nat)
    requires env.Sound() && Durable(env, d)
    ensures var d' := CrashAt(d, InitializePlan(env, f, d).writes, k, torn);
            && Leaves(env, RecoverGap(env, d, k, torn), ContentsOf(env, Target(env, d)), d')
            && (Firm(env, d) ==> Firm(env, d'))
  {
    hide Leaves, Durable, Target, RecoverWrites, Firm, RecoverGap, Settled, CrashAt, RecoverPlan, ContentsOf;
    var target, start := Target(env, d), RecoverWrites(env, d);
    var s := Current(env, f, target);
    RecoverSettles(env, f, d);
    RecoverHolds(env, d, k, torn);
    if target.state.Absent? && env.validate(s) == Fine {
      CrashConcat(d, start, [PutState(s)], k, torn);
      if RecoverGap(env, d, k, torn) { GapInside(env, d, k, torn); }
      if k >= |start| { CreateKeepsContents(env, f, target, k - |start|, torn); }
    }
  }

  lemma ContentsAfter<C(!new)>(env: Env<C>, f: Fresh, d: Files<C>, r: Request<C>, rotate: bool, k: nat)
    requires Durable(env, d) && Commits(env, f, d, r)
    ensures var c := ContentsOf(env, Target(env, d));
            ContentsOf(env, OldOrNew(env, f, d, r, rotate, k)) == if k <= |RecoverWrites(env, d)| then c
                else AtomicStep(c, r)
  {
  }

  /** Stopped there, the call leaves a stranded directory. */
  ghost predicate Strands<C(!new)>(env: Env<C>, d: Files<C>, a: Attempt<C>)
    requires Durable(env, d)
  {
    if a.call.Change? && Commits(env, a.call.names, d, a.call.request)
    then UpdateGap(env, a.call.names, d, a.call.request, a.writes, a.torn)
    else RecoverGap(env, d, a.writes, a.torn)
  }

  /** The call records no payload that the transaction file would change. */
  ghost predicate Plain<C(!new)>(env: Env<C>, c: Call<C>) { c.Change? ==> RecordsPlainly(env, c.request) }

  lemma ChangeRefines<C(!new)>(env: Env<C>, f: Fresh, d: Files<C>, r: Request<C>, rotate: bool, k: nat, torn: nat)
    requires env.Sound() && Durable(env, d) && Commits(env, f, d, r)
    ensures var c := ContentsOf(env, Target(env, d));
            var d' := CrashAt(d, UpdatePlan(env, f, d, r, rotate).writes, k, torn);
            && Leaves(env, UpdateGap(env, f, d, r, k, torn), if k <= |RecoverWrites(env, d)| then c
               else AtomicStep(c, r), d')
            && (Firm(env, d) && RecordsPlainly(env, r) ==> Firm(env, d'))
  {
    hide Lands, Leaves, Firm, UpdateGap, RecordsPlainly, Durable, Target, UpdatePlan, OldOrNew;
    var d' := CrashAt(d, UpdatePlan(env, f, d, r, rotate).writes, k, torn);
    UpdateAtomic(env, f, d, r, rotate, k, torn);
    ContentsAfter(env, f, d, r, rotate, k);
    LandsHolds(env, UpdateGap(env, f, d, r, k, torn), OldOrNew(env, f, d, r, rotate, k), d');
  }

  /** One attempted call, crashed or not, is zero or one atomic steps, unless it is stopped in the gap. */
  lemma AttemptRefines<C(!new)>(env: Env<C>, d: Files<C>, a: Attempt<C>)
    requires env.Sound() && Durable(env, d)
    ensures Leaves(env, Strands(env, d, a), AtomicRun(ContentsOf(env, Target(env, d)), Effect(env, d, a)),
            Attempted(env, d, a))
    ensures Firm(env, d) && Plain(env, a.call) ==> Firm(env, Attempted(env, d, a))
  {
    hide Leaves, Firm, UpdateGap, RecoverGap, RecordsPlainly, Durable, Target, UpdatePlan, InitializePlan, RecoverPlan,
         RecoverWrites, Commits;
    match a.call
    case Load(f) =>
      RecoverSettles(env, f, d);
      RecoverHolds(env, d, a.writes, a.torn);
    case Initialize(f) =>
      InitializeAtomic(env, f, d, a.writes, a.torn);
    case Change(f, r, rotate) =>
      if Commits(env, f, d, r) {
        ChangeRefines(env, f, d, r, rotate, a.writes, a.torn);
        assert [r][1..] == [];
      } else {
        RefusalKeeps(env, f, d, r, rotate, a.writes, a.torn);
        RecoverHolds(env, d, a.writes, a.torn);
      }
  }

  ghost function Run<C(!new)>(env: Env<C>, d: Files<C>, run: seq<Attempt<C>>): Files<C>
    decreases |run|
  {
    if run == [] then d else Run(env, Attempted(env, d, run[0]), run[1..])
  }

  /** No call of the run is stopped in its gap. */
  ghost predicate Unstranded<C(!new)>(env: Env<C>, d: Files<C>, run: seq<Attempt<C>>)
    decreases |run|
  {
    && Durable(env, d)
    && (run != [] ==> !Strands(env, d, run[0]) && Unstranded(env, Attempted(env, d, run[0]), run[1..]))
  }

  /** After every call of the run a recovery that is left alone succeeds. */
  ghost predicate StaysRecoverable<C(!new)>(env: Env<C>, d: Files<C>, run: seq<Attempt<C>>)
    decreases |run|
  {
    Recovers(env, d) && (run != [] ==> StaysRecoverable(env, Attempted(env, d, run[0]), run[1..]))
  }

  lemma AttemptExactly<C(!new)>(env: Env<C>, d: Files<C>, a: Attempt<C>)
    requires env.Sound() && Durable(env, d)
    ensures Durable(env, Attempted(env, d, a)) <==> !Strands(env, d, a)
    ensures Recovers(env, Attempted(env, d, a)) <==> !Strands(env, d, a)
  {
    hide Strands, AtomicRun, Attempted, Effect, Recovers, Target, RecoverPlan, Recoverable;
    AttemptRefines(env, d, a);
    if Strands(env, d, a) {
      StrandedFails(env, Attempted(env, d, a));
      StrandedPlan(env, NO_NAMES, Attempted(env, d, a));
      StrandedNotDurable(env, Attempted(env, d, a));
    } else {
      DurableRecovers(env, Attempted(env, d, a));
    }
  }

  lemma StrandedNotDurable<C(!new)>(env: Env<C>, d: Files<C>)
    requires env.Sound() && Stranded(env, d)
    ensures !Durable(env, d)
  {
    StrandedPlan(env, NO_NAMES, d);
    assert ApplyAll(d, []) == d;
  }

  /** Over every run: after each call recovery succeeds if and only if no call was stopped in its gap. */
  lemma {:induction false} RunExactly<C(!new)>(env: Env<C>, d: Files<C>, run: seq<Attempt<C>>)
    requires env.Sound() && Durable(env, d)
    ensures StaysRecoverable(env, d, run) <==> Unstranded(env, d, run)
    decreases |run|
  {
    hide Durable, Strands, Attempted, Recovers;
    DurableRecovers(env, d);
    if run != [] {
      AttemptExactly(env, d, run[0]);
      if !Strands(env, d, run[0]) { RunExactly(env, Attempted(env, d, run[0]), run[1..]); }
    }
  }

  /** A crash between append and snapshot strands the update of any settled directory whose payload does not
      survive the transaction file. */
  lemma CrashStrands<C(!new)>(env: Env<C>, f: Fresh, d: Files<C>, r: Request<C>, rotate: bool)
    requires env.Sound() && Settled(env, d) && d.journal.Absent? && !Current(env, f, d).blocked
    requires NextTxn(env, f, Current(env, f, d), r).Some?
    requires !env.codec.Survives(NextTxn(env, f, Current(env, f, d), r).value.event.payload)
    ensures var a := Attempt(Change(f, r, rotate), 2, 0);
            Durable(env, d) && Strands(env, d, a) && Stranded(env, Attempted(env, d, a))
  {
    hide NextTxn, Settled, RecoverGap, Stranded, AtomicRun, Effect, Attempted;
    var a := Attempt(Change(f, r, rotate), 2, 0);
    SettledMeansItself(env, d);
    AttemptRefines(env, d, a);
  }

  lemma SettledMeansItself<C(!new)>(env: Env<C>, d: Files<C>)
    requires Settled(env, d) && d.journal.Absent?
    ensures Durable(env, d) && Target(env, d) == d && RecoverWrites(env, d) == []
  {
    UnjournalledDenotes(env, d, d);
  }

  /** No crash ever strands a run whose payloads all survive the transaction file. */
  lemma {:induction false} PlainRuns<C(!new)>(env: Env<C>, d: Files<C>, run: seq<Attempt<C>>)
    requires env.Sound() && Firm(env, d) && forall i :: 0 <= i < |run| ==> Plain(env, run[i].call)
    ensures Unstranded(env, d, run)
    decreases |run|
  {
    hide Plain, Strands, Attempted, Leaves, AtomicRun, Effect, Fragile;
    if run != [] {
      AttemptRefines(env, d, run[0]);
      AttemptExactly(env, d, run[0]);
      PlainRuns(env, Attempted(env, d, run[0]), run[1..]);
    }
  }

  /** The updates that take effect in a run, in order. */
  ghost function Effects<C(!new)>(env: Env<C>, d: Files<C>, run: seq<Attempt<C>>): seq<Request<C>>
    requires Unstranded(env, d, run)
    decreases |run|
  {
    if run == [] then [] else Effect(env, d, run[0]) + Effects(env, Attempted(env, d, run[0]), run[1..])
  }

  lemma {:induction false} AtomicRunConcat<C>(c: Contents<C>, a: seq<Request<C>>, b: seq<Request<C>>)
    ensures AtomicRun(c, a + b) == AtomicRun(AtomicRun(c, a), b)
    decreases |a|
  {
    if a == [] {
      assert a + b == b;
    } else {
      assert (a + b)[0] == a[0] && (a + b)[1..] == a[1..] + b;
      AtomicRunConcat(AtomicStep(c, a[0]), a[1..], b);
    }
  }

  /** Refinement: every run of crashing calls, none of them stopped in its gap, means the atomic run of the
      updates that took effect. */
  lemma {:induction false} RunRefines<C(!new)>(env: Env<C>, d: Files<C>, run: seq<Attempt<C>>)
    requires env.Sound() && Unstranded(env, d, run)
    ensures Durable(env, Run(env, d, run))
    ensures ContentsOf(env, Target(env, Run(env, d, run))) ==
            AtomicRun(ContentsOf(env, Target(env, d)), Effects(env, d, run))
    decreases |run|
  {
    hide Durable, Target, Strands, Attempted, Effect, AtomicStep;
    if run != [] {
      var d1 := Attempted(env, d, run[0]);
      AttemptRefines(env, d, run[0]);
      RunRefines(env, d1, run[1..]);
      AtomicRunConcat(ContentsOf(env, Target(env, d)), Effect(env, d, run[0]), Effects(env, d1, run[1..]));
    }
  }

  /** An update whose call returned its snapshot has taken effect. */
  lemma AcknowledgedTakesEffect<C(!new)>(env: Env<C>, d: Files<C>, a: Attempt<C>)
    requires env.Sound() && Durable(env, d) && a.call.Change?
    requires CallPlan(env, d, a.call).outcome.Recovered? && a.writes >= |CallPlan(env, d, a.call).writes|
    ensures Effect(env, d, a) == [a.call.request]
    ensures CallPlan(env, d, a.call).outcome.snapshot.revision == ContentsOf(env, Target(env, d)).revision + 1
  {
    hide Env.Sound, Durable, Target, NextTxn, RecoverPlan, RecoverWrites, UpdatePlan, UpdateTail, Lands, Read;
    var f, r := a.call.names, a.call.request;
    if Commits(env, f, d, r) {
      UpdateShape(env, f, d, r, a.call.rotate);
      CommittingIs(env, f, d, r);
      NextTells(env, f, Current(env, f, Target(env, d)), r);
    } else {
      RefusalKeeps(env, f, d, r, a.call.rotate, a.writes, a.torn);
    }
  }

  /** In every reachable directory, once settled, the log agrees with the revision. */
  lemma LogAgrees<C(!new)>(env: Env<C>, d: Files<C>, run: seq<Attempt<C>>)
    requires env.Sound() && Unstranded(env, d, run)
    ensures Durable(env, Run(env, d, run))
    ensures var target := Target(env, Run(env, d, run));
            && Read(env, target).LogOk?
            && Contiguous(ContentsOf(env, target).revision, Read(env, target).events)
            && (ContentsOf(env, target).revision == 0 <==> Read(env, target).events == [])
  {
    RunRefines(env, d, run);
    RecoverSettles(env, NO_NAMES, Run(env, d, run));
  }
}
