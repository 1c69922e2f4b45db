/**
 Durable directories, with or without a restore journal, and what recovery does to
 them: it ends in one target directory whatever crashes interrupt it.
 */
module Durability {
  import opened Wrappers
  import opened Disk
  import opened Recovery
  import opened Atomicity

  /** The directory after the staged restore, if a journal asks for one. */
  ghost function Staged<C(!new)>(env: Env<C>, d: Files<C>): Files<C>
    requires JournalWrites(env, d).Some?
  {
    ApplyAll(d, JournalWrites(env, d).value)
  }

  ghost predicate Durable<C(!new)>(env: Env<C>, d: Files<C>) {
    JournalWrites(env, d).Some? && Recoverable(env, Staged(env, d))
  }

  /** What the directory means: the settled directory that recovery ends in. */
  ghost function Target<C(!new)>(env: Env<C>, d: Files<C>): Files<C>
    requires Durable(env, d)
  {
    Redo(env, Staged(env, d))
  }

  ghost function Denotes<C(!new)>(env: Env<C>, target: Files<C>): Files<C> -> bool {
    d => Durable(env, d) && Target(env, d) == target
  }

  // ---------------------------------------------------------------- the staged restore

  lemma StagedFiles<C(!new)>(env: Env<C>, d: Files<C>)
    requires JournalWrites(env, d).Some? && d.journal.Present?
    ensures var j := d.journal.value;
            Staged(env, d) ==
            Files(Present(j.state), if j.txn.Some? then Present(j.txn.value) else d.txn, j.log, Absent, d.backups)
  {
    var j := d.journal.value;
    var d1 := if j.txn.Some? then Apply(d, PutTxn(j.txn.value)) else d;
    var three := [ReplaceLog(j.log), PutState(j.state), DropJournal];
    assert three[1..] == [PutState(j.state), DropJournal];
    ApplyFew(Apply(d1, ReplaceLog(j.log)), PutState(j.state), DropJournal);
    assert ApplyAll(d1, three) == ApplyAll(Apply(d1, ReplaceLog(j.log)), three[1..]);
    if j.txn.Some? {
      assert [PutTxn(j.txn.value), ReplaceLog(j.log), PutState(j.state), DropJournal][1..] == three;
    }
  }

  lemma StagedAgain<C(!new)>(env: Env<C>, d: Files<C>, w: Write<C>)
    requires JournalWrites(env, d).Some? && d.journal.Present?
    requires w in JournalWrites(env, d).value && !w.DropJournal?
    ensures JournalWrites(env, Apply(d, w)) == JournalWrites(env, d)
    ensures Staged(env, Apply(d, w)) == Staged(env, d)
  {
    StagedFiles(env, d);
    StagedFiles(env, Apply(d, w));
  }

  lemma UnjournalledDenotes<C(!new)>(env: Env<C>, d: Files<C>, target: Files<C>)
    requires d.journal.Absent? && Means(env, target)(d)
    ensures Denotes(env, target)(d)
  {
    assert JournalWrites(env, d) == Some([]);
    assert Staged(env, d) == d;
  }

  lemma RestoreLast<C(!new)>(env: Env<C>, d: Files<C>, target: Files<C>)
    requires d.journal.Present? && Denotes(env, target)(d)
    requires Apply(d, DropJournal) == Staged(env, d)
    ensures Denotes(env, target)(Apply(d, DropJournal))
  {
    UnjournalledDenotes(env, Staged(env, d), target);
  }

  lemma RestoreNext<C(!new)>(env: Env<C>, d: Files<C>, w: Write<C>, target: Files<C>)
    requires d.journal.Present? && Denotes(env, target)(d)
    requires w in JournalWrites(env, d).value && !w.DropJournal?
    ensures Denotes(env, target)(Apply(d, w)) && Apply(d, w).journal.Present?
  {
    StagedAgain(env, d, w);
  }

  lemma QuietWrites<C(!new)>(env: Env<C>, d: Files<C>, w: Write<C>)
    requires JournalWrites(env, d).Some? && w in JournalWrites(env, d).value
    ensures !w.Append?
  {
  }

  /** Any suffix of the restore that is still to be done can be interrupted. */
  lemma {:induction false} RestoreKeeps<C(!new)>(env: Env<C>, d: Files<C>, ws: seq<Write<C>>, target: Files<C>)
    requires d.journal.Present? && Denotes(env, target)(d)
    requires ws != [] && ws[|ws| - 1].DropJournal? && (forall i :: 0 <= i < |ws| - 1 ==> !ws[i].DropJournal?)
    requires forall w :: w in ws ==> w in JournalWrites(env, d).value
    requires ApplyAll(d, ws) == Staged(env, d)
    ensures Keeps(Denotes(env, target), d, ws)
    decreases |ws|
  {
    hide Target, JournalWrites, Recoverable, Redo;
    var w, rest := ws[0], ws[1..];
    QuietWrites(env, d, w);
    assert forall torn: nat :: Torn(d, w, torn) == d;
    if rest == [] {
      ApplyFew(d, w, w);
      assert ws == [w];
      RestoreLast(env, d, target);
      assert Keeps(Denotes(env, target), Apply(d, w), rest);
    } else {
      RestoreNext(env, d, w, target);
      StagedAgain(env, d, w);
      RestoreKeeps(env, Apply(d, w), rest, target);
    }
  }

  lemma RestoreShape<C(!new)>(env: Env<C>, d: Files<C>)
    requires JournalWrites(env, d).Some? && d.journal.Present?
    ensures var ws := JournalWrites(env, d).value;
            ws != [] && ws[|ws| - 1].DropJournal? && forall i :: 0 <= i < |ws| - 1 ==> !ws[i].DropJournal?
  {
  }

  lemma JournalKeeps<C(!new)>(env: Env<C>, d: Files<C>, target: Files<C>)
    requires Denotes(env, target)(d)
    ensures Keeps(Denotes(env, target), d, JournalWrites(env, d).value)
    ensures d.journal.Absent? || d.journal.Present?
    ensures Staged(env, d).journal.Absent? && Means(env, target)(Staged(env, d))
  {
    if d.journal.Present? {
      StagedFiles(env, d);
      RestoreShape(env, d);
      RestoreKeeps(env, d, JournalWrites(env, d).value, target);
    }
  }

  // ---------------------------------------------------------------- recovery of a durable directory

  lemma MeansDenotes<C(!new)>(env: Env<C>, target: Files<C>)
    requires target.journal.Absent?
    ensures forall x :: Means(env, target)(x) ==> Denotes(env, target)(x)
  {
    forall x | Means(env, target)(x) ensures Denotes(env, target)(x) {
      UnjournalledDenotes(env, x, target);
    }
  }

  ghost function RecoverWrites<C(!new)>(env: Env<C>, d: Files<C>): seq<Write<C>>
    requires Durable(env, d)
  {
    JournalWrites(env, d).value + RedoWrites(env, Staged(env, d))
  }

  /** Recovery of a durable directory makes the missing writes and ends in its target. */
  lemma RecoverSettles<C(!new)>(env: Env<C>, f: Fresh, d: Files<C>)
    requires env.Sound() && Durable(env, d)
    ensures RecoverPlan(env, f, d) == Plan(RecoverWrites(env, d), Recovered(Current(env, f, Target(env, d))))
    ensures ApplyAll(d, RecoverWrites(env, d)) == Target(env, d)
    ensures Settled(env, Target(env, d)) && Target(env, d).journal.Absent?
  {
    hide Redo, RedoWrites, Recoverable, Settled;
    var target, staged := Target(env, d), Staged(env, d);
    JournalKeeps(env, d, target);
    RedoEnds(env, staged);
    RedoSameJournal(env, staged);
    ApplyConcat(d, JournalWrites(env, d).value, RedoWrites(env, staged));
    CoreSettles(env, f, staged);
  }

  lemma RedoSameJournal<C(!new)>(env: Env<C>, d: Files<C>)
    requires Recoverable(env, d)
    ensures Redo(env, d).journal == d.journal
  {
  }

  /** Stopped there, a recovery leaves a stranded directory. */
  ghost predicate RecoverGap<C(!new)>(env: Env<C>, d: Files<C>, k: nat, torn: nat)
    requires Durable(env, d)
  {
    var before := |JournalWrites(env, d).value|;
    k >= before && RedoGap(env, Staged(env, d), k - before, torn)
  }

  /** No crash of a recovery strands the directory. */
  ghost predicate Firm<C(!new)>(env: Env<C>, d: Files<C>) { Durable(env, d) && !Fragile(env, Staged(env, d)) }

  /** Every crash in a recovery either keeps the target of the directory, or strands it, and it strands it
      exactly in the gap. */
  lemma RecoverCrash<C(!new)>(env: Env<C>, d: Files<C>, k: nat, torn: nat)
    requires env.Sound() && Durable(env, d)
    ensures var d' := CrashAt(d, RecoverWrites(env, d), k, torn);
            && (if RecoverGap(env, d, k, torn) then Stranded(env, d') else Denotes(env, Target(env, d))(d'))
            && (Firm(env, d) ==> Firm(env, d') && !RecoverGap(env, d, k, torn))
  {
    hide Redo, RedoWrites, Recoverable, Stranded;
    var target, first, staged := Target(env, d), JournalWrites(env, d).value, Staged(env, d);
    JournalKeeps(env, d, target);
    RedoSameJournal(env, staged);
    MeansDenotes(env, target);
    CrashConcat(d, first, RedoWrites(env, staged), k, torn);
    if k < |first| {
      JournalCrash(env, d, k, torn);
    } else {
      RedoCrash(env, staged, k - |first|, torn);
      CrashSameJournal(staged, RedoWrites(env, staged), k - |first|, torn);
      RedoQuiet(env, staged);
    }
  }

  /** The redo touches neither journal nor backups. */
  lemma RedoQuiet<C(!new)>(env: Env<C>, d: Files<C>)
    requires Recoverable(env, d)
    ensures forall w :: w in RedoWrites(env, d) ==> !w.PutJournal? && !w.DropJournal?
  {
  }

  lemma {:induction false} CrashSameJournal<C>(d: Files<C>, ws: seq<Write<C>>, k: nat, torn: nat)
    ensures (forall w :: w in ws ==> !w.PutJournal? && !w.DropJournal?) ==> CrashAt(d, ws, k, torn).journal == d.journal
    decreases |ws|
  {
    if ws != [] && k > 0 { CrashSameJournal(Apply(d, ws[0]), ws[1..], k - 1, torn); }
  }

  /** While the journal is being completed the staged directory stays the same. */
  lemma JournalCrash<C(!new)>(env: Env<C>, d: Files<C>, k: nat, torn: nat)
    requires Durable(env, d) && k < |JournalWrites(env, d).value|
    ensures var d' := CrashAt(d, JournalWrites(env, d).value, k, torn);
            && Denotes(env, Target(env, d))(d') && (Firm(env, d) ==> Firm(env, d'))
  {
    hide Redo, Recoverable, Fragile;
    var ws := JournalWrites(env, d).value;
    StagedFiles(env, d);
    StagedKeeps(env, d, ws, k, torn);
  }

  lemma {:induction false} StagedKeeps<C(!new)>(env: Env<C>, d: Files<C>, ws: seq<Write<C>>, k: nat, torn: nat)
    requires d.journal.Present? && JournalWrites(env, d).Some? && k < |ws|
    requires forall i :: 0 <= i < |ws| - 1 ==> !ws[i].DropJournal? && ws[i] in JournalWrites(env, d).value
    requires ws[|ws| - 1] in JournalWrites(env, d).value
    ensures var d' := CrashAt(d, ws, k, torn); JournalWrites(env, d').Some? && Staged(env, d') == Staged(env, d)
    decreases |ws|
  {
    hide JournalWrites;
    QuietWrites(env, d, ws[0]);
    if k > 0 {
      StagedAgain(env, d, ws[0]);
      JournalStays(env, d, ws[0]);
      StagedKeeps(env, Apply(d, ws[0]), ws[1..], k - 1, torn);
    }
  }

  lemma JournalStays<C(!new)>(env: Env<C>, d: Files<C>, w: Write<C>)
    requires JournalWrites(env, d).Some? && w in JournalWrites(env, d).value && !w.DropJournal?
    ensures Apply(d, w).journal == d.journal
  {
  }

  /** After a recovery another one finds nothing to do and returns the same snapshot. */
  lemma SettledAgain<C(!new)>(env: Env<C>, f: Fresh, d: Files<C>)
    requires env.Sound() && Durable(env, d)
    ensures Durable(env, Target(env, d)) && Target(env, Target(env, d)) == Target(env, d)
    ensures RecoverPlan(env, f, Target(env, d)) == Plan([], RecoverPlan(env, f, d).outcome)
  {
    RecoverSettles(env, f, d);
    var target := Target(env, d);
    UnjournalledDenotes(env, target, target);
    RecoverSettles(env, f, target);
  }

  // ---------------------------------------------------------------- interrupted recoveries

  /** One interrupted recovery. */
  datatype Crash = Crash(names: Fresh, writes: nat, torn: nat)

  ghost function After<C(!new)>(env: Env<C>, d: Files<C>, c: Crash): Files<C> {
    CrashAt(d, RecoverPlan(env, c.names, d).writes, c.writes, c.torn)
  }

  ghost function Interrupted<C(!new)>(env: Env<C>, d: Files<C>, crashes: seq<Crash>): Files<C>
    decreases |crashes|
  {
    if crashes == [] then d else Interrupted(env, After(env, d, crashes[0]), crashes[1..])
  }

  /** No interruption falls into the gap. */
  ghost predicate Undisturbed<C(!new)>(env: Env<C>, d: Files<C>, crashes: seq<Crash>)
    decreases |crashes|
  {
    && Durable(env, d)
    && (crashes != [] ==>
          !RecoverGap(env, d, crashes[0].writes, crashes[0].torn)
          && Undisturbed(env, After(env, d, crashes[0]), crashes[1..]))
  }

  /** A recovery that is left alone succeeds. */
  ghost predicate Recovers<C(!new)>(env: Env<C>, d: Files<C>) { forall f :: RecoverPlan(env, f, d).outcome.Recovered? }

  ghost predicate AlwaysRecovers<C(!new)>(env: Env<C>, d: Files<C>, crashes: seq<Crash>)
    decreases |crashes|
  {
    Recovers(env, d) && (crashes != [] ==> AlwaysRecovers(env, After(env, d, crashes[0]), crashes[1..]))
  }

  lemma DurableRecovers<C(!new)>(env: Env<C>, d: Files<C>)
    requires env.Sound() && Durable(env, d)
    ensures Recovers(env, d)
  {
    forall f ensures RecoverPlan(env, f, d).outcome.Recovered? { RecoverSettles(env, f, d); }
  }

  const NO_NAMES := Fresh(0, "", "", "")

  lemma StrandedFails<C(!new)>(env: Env<C>, d: Files<C>)
    requires env.Sound() && Stranded(env, d)
    ensures !Recovers(env, d)
  {
    StrandedPlan(env, NO_NAMES, d);
  }

  lemma AfterCrash<C(!new)>(env: Env<C>, d: Files<C>, c: Crash)
    requires env.Sound() && Durable(env, d)
    ensures After(env, d, c) == CrashAt(d, RecoverWrites(env, d), c.writes, c.torn)
    ensures if RecoverGap(env, d, c.writes, c.torn) then Stranded(env, After(env, d, c))
            else Denotes(env, Target(env, d))(After(env, d, c))
    ensures Firm(env, d) ==> Firm(env, After(env, d, c)) && !RecoverGap(env, d, c.writes, c.torn)
  {
    RecoverSettles(env, c.names, d);
    RecoverCrash(env, d, c.writes, c.torn);
  }

  /** Recovery may be interrupted any number of times outside the gap: the run that finishes ends in the
      same files and returns the same snapshot as a run that was never interrupted. */
  lemma {:induction false} InterruptedRecovery<C(!new)>(env: Env<C>, f: Fresh, d: Files<C>, crashes: seq<Crash>)
    requires env.Sound() && Undisturbed(env, d, crashes)
    ensures var d' := Interrupted(env, d, crashes);
            && Durable(env, d') && Target(env, d') == Target(env, d)
            && RecoverPlan(env, f, d').outcome == RecoverPlan(env, f, d).outcome
            && ApplyAll(d', RecoverPlan(env, f, d').writes) == ApplyAll(d, RecoverPlan(env, f, d).writes)
    decreases |crashes|
  {
    hide RecoverPlan, Recoverable, RecoverGap, After;
    RecoverSettles(env, f, d);
    if crashes != [] {
      AfterCrash(env, d, crashes[0]);
      RecoverSettles(env, f, After(env, d, crashes[0]));
      InterruptedRecovery(env, f, After(env, d, crashes[0]), crashes[1..]);
    }
  }

  /** And exactly then: a recovery that is left alone succeeds after every interruption if and only if none
      fell into the gap. */
  lemma {:induction false} InterruptedExactly<C(!new)>(env: Env<C>, d: Files<C>, crashes: seq<Crash>)
    requires env.Sound() && Durable(env, d)
    ensures AlwaysRecovers(env, d, crashes) <==> Undisturbed(env, d, crashes)
    decreases |crashes|
  {
    hide RecoverPlan, Recoverable, RecoverGap, After, Recovers;
    DurableRecovers(env, d);
    if crashes != [] {
      AfterCrash(env, d, crashes[0]);
      if RecoverGap(env, d, crashes[0].writes, crashes[0].torn) {
        StrandedFails(env, After(env, d, crashes[0]));
      } else {
        InterruptedExactly(env, After(env, d, crashes[0]), crashes[1..]);
      }
    }
  }

  /** Interruptions never disturb the recovery of a directory whose pending payload survives its file. */
  lemma {:induction false} FirmUndisturbed<C(!new)>(env: Env<C>, d: Files<C>, crashes: seq<Crash>)
    requires env.Sound() && Firm(env, d)
    ensures Undisturbed(env, d, crashes)
    decreases |crashes|
  {
    hide RecoverPlan, Recoverable, RecoverGap, After, Fragile;
    if crashes != [] {
      AfterCrash(env, d, crashes[0]);
      FirmUndisturbed(env, After(env, d, crashes[0]), crashes[1..]);
    }
  }
}
