/**
 The durable files of one repository and the writes made to them.

 Every replacement is one atomic write; only an append can be torn.  An
 operation is a sequence of writes, and a crash keeps a prefix of it.
 */
module Disk {
  import opened Wrappers
  import opened EventLog

  /** What a file holds: nothing, bytes that do not decode, an unsupported schema, or a value. */
  datatype Stored<+T> = Absent | Garbage | Foreign | Present(value: T)

  datatype Snapshot<C> = Snapshot(
    version: int, repoId: string, revision: nat, updatedAt: int, blocked: bool, body: C)

  /** A prepared transaction: the next snapshot and the event that records it, as they are decoded from the file. */
  datatype Txn<C> = Txn(version: int, snapshot: Snapshot<C>, event: Event)

  /** Files set aside by a quarantine. */
  datatype Backup<C> = Backup(state: Stored<Snapshot<C>>, log: seq<Byte>, txn: Stored<Txn<C>>)

  /** The restore journal names a backup and the exact contents it had when it was planned. */
  datatype Journal<C> = Journal(
    repoId: string, backup: string, state: Snapshot<C>, log: seq<Byte>, txn: Option<Txn<C>>)

  datatype Files<C> = Files(
    state: Stored<Snapshot<C>>, txn: Stored<Txn<C>>, log: seq<Byte>,
    journal: Stored<Journal<C>>, backups: map<string, Backup<C>>)

  datatype Write<C> =
    | PutState(snapshot: Snapshot<C>)
    | PutTxn(txn: Txn<C>)
    | DropTxn
    | Append(line: seq<Byte>)
    | Truncate(length: nat)
    | ReplaceLog(bytes: seq<Byte>)
    | PutJournal(journal: Journal<C>)
    | DropJournal
    | SetAsideState(dir: string)
    | SetAsideLog(dir: string)
    | SetAsideTxn(dir: string)
    | StageState(dir: string, staged: Snapshot<C>)
    | StageLog(dir: string, lines: seq<Byte>)

  function BackupAt<C>(d: Files<C>, dir: string): Backup<C> {
    if dir in d.backups then d.backups[dir] else Backup(Absent, [], Absent)
  }

  function Apply<C>(d: Files<C>, w: Write<C>): Files<C> {
    match w
    case PutState(s) => d.(state := Present(s))
    case PutTxn(t) => d.(txn := Present(t))
    case DropTxn => d.(txn := Absent)
    case Append(line) => d.(log := d.log + line)
    case Truncate(n) => if n <= |d.log| then d.(log := d.log[..n]) else d
    case ReplaceLog(b) => d.(log := b)
    case PutJournal(j) => d.(journal := Present(j))
    case DropJournal => d.(journal := Absent)
    case SetAsideState(dir) =>
      d.(backups := d.backups[dir := BackupAt(d, dir).(state := d.state)], state := Absent)
    case SetAsideLog(dir) =>
      d.(backups := d.backups[dir := BackupAt(d, dir).(log := d.log)], log := [])
    case SetAsideTxn(dir) =>
      d.(backups := d.backups[dir := BackupAt(d, dir).(txn := d.txn)], txn := Absent)
    case StageState(dir, s) => d.(backups := d.backups[dir := BackupAt(d, dir).(state := Present(s))])
    case StageLog(dir, lines) => d.(backups := d.backups[dir := BackupAt(d, dir).(log := lines)])
  }

  function ApplyAll<C>(d: Files<C>, ws: seq<Write<C>>): Files<C>
    decreases |ws|
  {
    if ws == [] then d else ApplyAll(Apply(d, ws[0]), ws[1..])
  }

  lemma ApplyFew<C>(d: Files<C>, a: Write<C>, b: Write<C>)
    ensures ApplyAll(d, []) == d && ApplyAll(d, [a]) == Apply(d, a)
    ensures ApplyAll(d, [a, b]) == Apply(Apply(d, a), b)
  {
    assert [a, b][1..] == [b] && [b][1..] == [];
    assert ApplyAll(d, [a, b]) == ApplyAll(Apply(d, a), [b]);
    assert ApplyAll(Apply(d, a), [b]) == ApplyAll(Apply(Apply(d, a), b), []);
  }

  /** A crash while `w` is being made: an append leaves `torn` of its bytes, anything else nothing. */
  function Torn<C>(d: Files<C>, w: Write<C>, torn: nat): Files<C> {
    if w.Append? && torn <= |w.line| then d.(log := d.log + w.line[..torn]) else d
  }

  /** The files after `k` complete writes and a crash in the next one. */
  function CrashAt<C>(d: Files<C>, ws: seq<Write<C>>, k: nat, torn: nat): Files<C>
    decreases |ws|
  {
    if ws == [] then d
    else if k == 0 then Torn(d, ws[0], torn)
    else CrashAt(Apply(d, ws[0]), ws[1..], k - 1, torn)
  }

  lemma {:induction false} ApplyConcat<C>(d: Files<C>, a: seq<Write<C>>, b: seq<Write<C>>)
    ensures ApplyAll(d, a + b) == ApplyAll(ApplyAll(d, a), b)
    decreases |a|
  {
    if a == [] {
      assert a + b == b;
    } else {
      assert (a + b)[0] == a[0] && (a + b)[1..] == a[1..] + b;
      ApplyConcat(Apply(d, a[0]), a[1..], b);
    }
  }

  lemma {:induction false} CrashConcat<C>(d: Files<C>, a: seq<Write<C>>, b: seq<Write<C>>, k: nat, torn: nat)
    ensures CrashAt(d, a + b, k, torn) ==
            if k < |a| then CrashAt(d, a, k, torn) else CrashAt(ApplyAll(d, a), b, k - |a|, torn)
    decreases |a|
  {
    if a == [] {
      assert a + b == b;
    } else {
      assert (a + b)[0] == a[0] && (a + b)[1..] == a[1..] + b;
      if k > 0 { CrashConcat(Apply(d, a[0]), a[1..], b, k - 1, torn); }
    }
  }

  lemma CrashAfter<C>(d: Files<C>, w: Write<C>, ws: seq<Write<C>>, k: nat, torn: nat)
    requires k > 0
    ensures CrashAt(d, [w] + ws, k, torn) == CrashAt(Apply(d, w), ws, k - 1, torn)
  {
    assert ([w] + ws)[1..] == ws;
  }

  lemma {:induction false} CrashBeyond<C>(d: Files<C>, ws: seq<Write<C>>, k: nat, torn: nat)
    requires k >= |ws|
    ensures CrashAt(d, ws, k, torn) == ApplyAll(d, ws)
    decreases |ws|
  {
    if ws != [] { CrashBeyond(Apply(d, ws[0]), ws[1..], k - 1, torn); }
  }

  // ---------------------------------------------------------------- what every crash keeps

  /** `good` holds before the first write, between any two, inside any of them, and after the last. */
  ghost predicate Keeps<C(!new)>(good: Files<C> -> bool, d: Files<C>, ws: seq<Write<C>>)
    decreases |ws|
  {
    && good(d)
    && (ws != [] ==> (forall torn: nat :: good(Torn(d, ws[0], torn))) && Keeps(good, Apply(d, ws[0]), ws[1..]))
  }

  lemma {:induction false} KeepsCrash<C(!new)>(
      good: Files<C> -> bool, d: Files<C>, ws: seq<Write<C>>, k: nat, torn: nat)
    requires Keeps(good, d, ws)
    ensures good(CrashAt(d, ws, k, torn)) && good(ApplyAll(d, ws))
    decreases |ws|
  {
    if ws != [] { KeepsCrash(good, Apply(d, ws[0]), ws[1..], if k == 0 then 0 else k - 1, torn); }
  }

  lemma HeadTail<C>(a: seq<Write<C>>, b: seq<Write<C>>)
    requires a != []
    ensures a + b == [a[0]] + (a[1..] + b)
  {
  }

  lemma {:induction false} KeepsConcat<C(!new)>(good: Files<C> -> bool, d: Files<C>, a: seq<Write<C>>, b: seq<Write<C>>)
    requires Keeps(good, d, a) && Keeps(good, ApplyAll(d, a), b)
    ensures Keeps(good, d, a + b)
    decreases |a|
  {
    if a == [] {
      assert a + b == b;
    } else {
      assert (a + b)[0] == a[0] && (a + b)[1..] == a[1..] + b;
      KeepsConcat(good, Apply(d, a[0]), a[1..], b);
    }
  }
}
