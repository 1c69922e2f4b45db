/**
 Webhook routing: an accepted delivery goes through the inbox to a repository's
 mailbox, leaving a receipt, or into quarantine.

 Every file operation is one write and a call may stop after any of them.  The log of
 mailbox writes and the set of accepted deliveries are history.
 */
module Broker {
  import opened Mailbox
  import opened Sorting

  datatype InboxFile = Readable(delivery: Delivery) | Unreadable

  datatype World = World(
    inbox: map<Id, InboxFile>, receipts: map<Id, int>, quarantine: set<(Id, InboxFile)>, mailbox: map<string, Box>,
    accepted: set<Delivery>, log: seq<Delivery>)

  datatype Write =
    | PutInbox(d: Delivery)
    | PutMailbox(d: Delivery)
    | PutReceipt(id: Id, at: int)
    | DropInbox(id: Id)
    | Quarantine(id: Id)
    | DropReceipt(id: Id)

  function BoxOf(w: World, repo: string): Box { if repo in w.mailbox then w.mailbox[repo] else map[] }

  function Apply(w: World, x: Write): World {
    match x
    case PutInbox(d) => w.(inbox := w.inbox[d.id := Readable(d)], accepted := w.accepted + {d})
    case PutMailbox(d) => w.(mailbox := w.mailbox[d.repoId := BoxOf(w, d.repoId)[d.id := d]], log := w.log + [d])
    case PutReceipt(id, at) => w.(receipts := w.receipts[id := at])
    case DropInbox(id) => w.(inbox := w.inbox - {id})
    case Quarantine(id) =>
      if id in w.inbox then w.(inbox := w.inbox - {id}, quarantine := w.quarantine + {(id, w.inbox[id])}) else w
    case DropReceipt(id) => w.(receipts := w.receipts - {id})
  }

  function ApplyAll(w: World, xs: seq<Write>): World
    decreases |xs|
  {
    if xs == [] then w else ApplyAll(Apply(w, xs[0]), xs[1..])
  }

  function Crash(w: World, xs: seq<Write>, k: nat): World {
    ApplyAll(w, if k <= |xs| then xs[..k] else xs)
  }

  // ---------------------------------------------------------------- the calls

  datatype Call =
    | Accept(d: Delivery)
    | Route(id: Id, at: int)
    | Migrate(id: Id, at: int)
    | Compact(cutoff: int, limit: nat, ids: seq<Id>)

  /** A delivery is linked into the inbox unless a receipt or a file of its identifier exists. */
  function AcceptWrites(w: World, d: Delivery): seq<Write> {
    if d.id in w.receipts || d.id in w.inbox then [] else [PutInbox(d.(routed := false))]
  }

  /** Mailbox first, receipt second, inbox last. */
  function RouteWrites(registered: Delivery -> bool, w: World, id: Id, at: int): seq<Write> {
    if id in w.receipts then [DropInbox(id)]
    else if id !in w.inbox then []
    else match w.inbox[id]
      case Unreadable => [Quarantine(id)]
      case Readable(d) =>
        if !registered(d) then [Quarantine(id)] else [PutMailbox(d), PutReceipt(id, at), DropInbox(id)]
  }

  /** A file the previous layout marked as routed becomes a receipt. */
  function MigrateWrites(w: World, id: Id, at: int): seq<Write> {
    if id in w.inbox && w.inbox[id].Readable? && w.inbox[id].delivery.routed
        then [PutReceipt(id, at), DropInbox(id)] else []
  }

  function Expired(receipts: map<Id, int>, cutoff: int, ids: seq<Id>): seq<Id> {
    if ids == [] then []
    else
      var rest := Expired(receipts, cutoff, ids[1..]);
      if ids[0] in receipts && receipts[ids[0]] < cutoff then [ids[0]] + rest else rest
  }

  function Young(receipts: map<Id, int>, cutoff: int, ids: seq<Id>): seq<Id> {
    if ids == [] then []
    else (if ids[0] in receipts && receipts[ids[0]] >= cutoff then [ids[0]] else []) + Young(receipts, cutoff, ids[1..])
  }

  function Age(receipts: map<Id, int>, id: Id): int { if id in receipts then receipts[id] else 0 }

  function ByAge(receipts: map<Id, int>): Id -> int { (id: Id) => Age(receipts, id) }

  /** The receipts a compaction drops: the expired ones, then the oldest beyond the limit. */
  function Dropped(receipts: map<Id, int>, cutoff: int, limit: nat, ids: seq<Id>): seq<Id> {
    var young := Sort(Young(receipts, cutoff, ids), ByAge(receipts));
    Expired(receipts, cutoff, ids) + if |young| > limit then young[..|young| - limit] else []
  }

  function DropAll(ids: seq<Id>): seq<Write> {
    seq(|ids|, k requires 0 <= k < |ids| => DropReceipt(ids[k]))
  }

  function CallWrites(registered: Delivery -> bool, w: World, c: Call): seq<Write> {
    match c
    case Accept(d) => AcceptWrites(w, d)
    case Route(id, at) => RouteWrites(registered, w, id, at)
    case Migrate(id, at) => MigrateWrites(w, id, at)
    case Compact(cutoff, limit, ids) => DropAll(Dropped(w.receipts, cutoff, limit, ids))
  }

  // ---------------------------------------------------------------- nothing is lost

  predicate Filed(w: World, d: Delivery) {
    || (d.id in w.inbox && w.inbox[d.id] == Readable(d))
    || (d.id, Readable(d)) in w.quarantine
    || d in w.log
  }

  predicate Good(w: World) {
    && (forall d :: d in w.accepted ==> Filed(w, d))
    && (forall id :: id in w.inbox && w.inbox[id].Readable? ==> w.inbox[id].delivery.id == id)
    && (forall id :: id in w.receipts ==> exists d :: d in w.log && d.id == id)
    && (forall id :: id in w.inbox && (id in w.receipts || (w.inbox[id].Readable? && w.inbox[id].delivery.routed)) ==>
          w.inbox[id].Readable? && w.inbox[id].delivery in w.log)
  }

  predicate AllGood(w: World, xs: seq<Write>)
    decreases |xs|
  {
    Good(w) && (xs != [] ==> AllGood(Apply(w, xs[0]), xs[1..]))
  }

  lemma {:induction false} AllGoodCrash(w: World, xs: seq<Write>, k: nat)
    requires AllGood(w, xs)
    ensures Good(Crash(w, xs, k))
    decreases |xs|
  {
    if xs != [] && k > 0 {
      var cut := if k <= |xs| then xs[..k] else xs;
      AllGoodCrash(Apply(w, xs[0]), xs[1..], if k <= |xs| then k - 1 else |xs|);
      assert cut[1..] == (if k <= |xs| then xs[1..][..k - 1] else xs[1..]);
    }
  }

  lemma AcceptKeeps(w: World, d: Delivery)
    requires Good(w)
    ensures AllGood(w, AcceptWrites(w, d))
  {
    var xs := AcceptWrites(w, d);
    if xs != [] {
      assert xs[1..] == [];
      assert Good(Apply(w, xs[0]));
    }
  }

  lemma PutMailboxKeeps(w: World, d: Delivery)
    requires Good(w)
    ensures Good(Apply(w, PutMailbox(d))) && d in Apply(w, PutMailbox(d)).log
  {
    var t := Apply(w, PutMailbox(d));
    forall id | id in t.receipts ensures exists e :: e in t.log && e.id == id {
      var e :| e in w.log && e.id == id;
      assert e in t.log;
    }
  }

  lemma PutReceiptKeeps(w: World, id: Id, at: int)
    requires Good(w) && id in w.inbox && w.inbox[id].Readable? && w.inbox[id].delivery in w.log
    ensures Good(Apply(w, PutReceipt(id, at)))
  {
  }

  /** Dropping an inbox file is safe once its delivery is in the log. */
  lemma DropInboxKeeps(w: World, id: Id)
    requires Good(w) && (id in w.inbox ==> w.inbox[id].Readable? && w.inbox[id].delivery in w.log)
    ensures Good(Apply(w, DropInbox(id)))
  {
  }

  lemma QuarantineKeeps(w: World, id: Id)
    requires Good(w)
    ensures Good(Apply(w, Quarantine(id)))
  {
  }

  lemma RouteKeeps(registered: Delivery -> bool, w: World, id: Id, at: int)
    requires Good(w)
    ensures AllGood(w, RouteWrites(registered, w, id, at))
  {
    var xs := RouteWrites(registered, w, id, at);
    if |xs| == 3 {
      var d := w.inbox[id].delivery;
      var w1 := Apply(w, PutMailbox(d));
      var w2 := Apply(w1, PutReceipt(id, at));
      PutMailboxKeeps(w, d);
      PutReceiptKeeps(w1, id, at);
      DropInboxKeeps(w2, id);
      assert xs[1..] == [PutReceipt(id, at), DropInbox(id)] && xs[1..][1..] == [DropInbox(id)];
      assert AllGood(Apply(w2, DropInbox(id)), []);
      assert AllGood(w2, [DropInbox(id)]);
      assert AllGood(w1, xs[1..]);
    } else if |xs| == 1 {
      DropInboxKeepsOrQuarantine(w, id, xs[0]);
      assert xs[1..] == [];
      assert AllGood(Apply(w, xs[0]), []);
    }
  }

  lemma DropInboxKeepsOrQuarantine(w: World, id: Id, x: Write)
    requires Good(w) && (x == Quarantine(id) || (x == DropInbox(id) && id in w.receipts))
    ensures Good(Apply(w, x))
  {
    if x.Quarantine? { QuarantineKeeps(w, id); } else { DropInboxKeeps(w, id); }
  }

  lemma MigrateKeeps(w: World, id: Id, at: int)
    requires Good(w)
    ensures AllGood(w, MigrateWrites(w, id, at))
  {
    var xs := MigrateWrites(w, id, at);
    if xs != [] {
      var w1 := Apply(w, PutReceipt(id, at));
      PutReceiptKeeps(w, id, at);
      DropInboxKeeps(w1, id);
      assert xs[1..] == [DropInbox(id)] && xs[1..][1..] == [];
      assert AllGood(Apply(w1, DropInbox(id)), []);
      assert AllGood(w1, [DropInbox(id)]);
    }
  }

  lemma {:induction false} DropAllKeeps(w: World, ids: seq<Id>)
    requires Good(w)
    ensures AllGood(w, DropAll(ids))
    decreases |ids|
  {
    if ids != [] {
      assert DropAll(ids)[1..] == DropAll(ids[1..]);
      assert Good(Apply(w, DropReceipt(ids[0])));
      DropAllKeeps(Apply(w, DropReceipt(ids[0])), ids[1..]);
    }
  }

  /** A call that stops after any number of its writes. */
  datatype Attempt = Attempt(call: Call, writes: nat)

  function Step(registered: Delivery -> bool, w: World, a: Attempt): World {
    Crash(w, CallWrites(registered, w, a.call), a.writes)
  }

  function Run(registered: Delivery -> bool, w: World, run: seq<Attempt>): World
    decreases |run|
  {
    if run == [] then w else Run(registered, Step(registered, w, run[0]), run[1..])
  }

  lemma StepKeeps(registered: Delivery -> bool, w: World, a: Attempt)
    requires Good(w)
    ensures Good(Step(registered, w, a))
  {
    hide Good;
    match a.call
    case Accept(d) => AcceptKeeps(w, d); AllGoodCrash(w, AcceptWrites(w, d), a.writes);
    case Route(id, at) => RouteKeeps(registered, w, id, at);
        AllGoodCrash(w, RouteWrites(registered, w, id, at), a.writes);
    case Migrate(id, at) => MigrateKeeps(w, id, at); AllGoodCrash(w, MigrateWrites(w, id, at), a.writes);
    case Compact(cutoff, limit, ids) =>
      DropAllKeeps(w, Dropped(w.receipts, cutoff, limit, ids));
      AllGoodCrash(w, DropAll(Dropped(w.receipts, cutoff, limit, ids)), a.writes);
  }

  /** Over every run of crashing calls: each accepted delivery is in the inbox, in quarantine, or was
      written to a mailbox; and a receipt exists only after the mailbox write. */
  lemma {:induction false} NothingIsLost(registered: Delivery -> bool, w: World, run: seq<Attempt>)
    requires Good(w)
    ensures var t := Run(registered, w, run);
            && Good(t) && (forall d :: d in t.accepted ==> Filed(t, d))
            && (forall id :: id in t.receipts ==> exists d :: d in t.log && d.id == id)
    decreases |run|
  {
    if run != [] {
      StepKeeps(registered, w, run[0]);
      NothingIsLost(registered, Step(registered, w, run[0]), run[1..]);
    }
  }

  // ---------------------------------------------------------------- what a call that finishes does

  lemma ApplyOne(w: World, x: Write)
    ensures ApplyAll(w, [x]) == Apply(w, x) && ApplyAll(w, []) == w
  {
    assert [x][1..] == [];
    assert ApplyAll(Apply(w, x), []) == Apply(w, x);
  }

  lemma ApplyThree(w: World, x: Write, y: Write, z: Write)
    ensures ApplyAll(w, [x, y, z]) == Apply(Apply(Apply(w, x), y), z)
  {
    CrashThree(w, x, y, z, 3);
    assert [x, y, z][..3] == [x, y, z];
  }

  /** A delivery with an unknown identifier goes into the inbox, still to be routed; any other changes nothing. */
  lemma AcceptFiles(w: World, d: Delivery)
    ensures var t, filed := ApplyAll(w, AcceptWrites(w, d)), d.(routed := false);
            if d.id in w.receipts || d.id in w.inbox then t == w
            else t == w.(inbox := w.inbox[d.id := Readable(filed)], accepted := w.accepted + {filed})
  {
    ApplyOne(w, PutInbox(d.(routed := false)));
  }

  /** A routing that finishes delivers to the mailbox of its own repository exactly what is readable,
      registered and without a receipt, and leaves a receipt. */
  lemma RouteDelivers(registered: Delivery -> bool, w: World, id: Id, at: int)
    requires Good(w) && id in w.inbox && id !in w.receipts
    requires w.inbox[id].Readable? && registered(w.inbox[id].delivery)
    ensures var d, t := w.inbox[id].delivery, ApplyAll(w, RouteWrites(registered, w, id, at));
            && d.id == id && id in BoxOf(t, d.repoId) && BoxOf(t, d.repoId) == BoxOf(w, d.repoId)[id := d]
            && (forall repo :: repo != d.repoId ==> BoxOf(t, repo) == BoxOf(w, repo))
            && t.receipts == w.receipts[id := at] && t.inbox == w.inbox - {id} && t.log == w.log + [d]
            && t.quarantine == w.quarantine && t.accepted == w.accepted
  {
    hide Crash, ApplyAll;
    ApplyThree(w, PutMailbox(w.inbox[id].delivery), PutReceipt(id, at), DropInbox(id));
  }

  /** What cannot be delivered is put into quarantine, what has a receipt only leaves the inbox, and what is not
      there changes nothing. */
  lemma RouteSetsAside(registered: Delivery -> bool, w: World, id: Id, at: int)
    requires id in w.inbox && id !in w.receipts ==> w.inbox[id].Unreadable? || !registered(w.inbox[id].delivery)
    ensures var t := ApplyAll(w, RouteWrites(registered, w, id, at));
            if id in w.receipts then t == w.(inbox := w.inbox - {id})
            else if id !in w.inbox then t == w
            else t == w.(inbox := w.inbox - {id}, quarantine := w.quarantine + {(id, w.inbox[id])})
  {
    hide ApplyAll;
    ApplyOne(w, DropInbox(id));
    ApplyOne(w, Quarantine(id));
  }

  /** A routed file of the older layout becomes a receipt; any other file is left alone. */
  lemma MigrationFiles(w: World, id: Id, at: int)
    ensures var t := ApplyAll(w, MigrateWrites(w, id, at));
            if id in w.inbox && w.inbox[id].Readable? && w.inbox[id].delivery.routed
            then t == w.(inbox := w.inbox - {id}, receipts := w.receipts[id := at]) else t == w
  {
    var x, y := PutReceipt(id, at), DropInbox(id);
    ApplyOne(Apply(w, x), y);
    assert [x, y][1..] == [y];
    assert ApplyAll(w, [x, y]) == ApplyAll(Apply(w, x), [y]);
  }

  /** A compaction removes exactly the receipts it drops. */
  lemma {:induction false} CompactionFiles(w: World, ids: seq<Id>)
    ensures ApplyAll(w, DropAll(ids)) == w.(receipts := w.receipts - (set id | id in ids))
    decreases |ids|
  {
    if ids == [] {
      assert w.receipts - {} == w.receipts;
    } else {
      var w1 := Apply(w, DropReceipt(ids[0]));
      assert DropAll(ids)[1..] == DropAll(ids[1..]);
      CompactionFiles(w1, ids[1..]);
      assert (set id | id in ids) == {ids[0]} + (set id | id in ids[1..]);
      assert w1.receipts - (set id | id in ids[1..]) == w.receipts - (set id | id in ids);
    }
  }

  // ---------------------------------------------------------------- everything in its place

  /** What is in quarantine could not be delivered, and a mailbox holds exactly the registered deliveries of
      its repository that were written. */
  predicate Placed(registered: Delivery -> bool, w: World) {
    && (forall q :: q in w.quarantine ==> q.1.Unreadable? || !registered(q.1.delivery))
    && (forall d :: d in w.log ==> registered(d) && d.id in BoxOf(w, d.repoId))
    && (forall repo :: repo in w.mailbox ==>
          forall id :: id in w.mailbox[repo] ==>
            var d := w.mailbox[repo][id]; d.id == id && d.repoId == repo && d in w.log)
  }

  lemma {:induction false} QuietPlaces(registered: Delivery -> bool, w: World, xs: seq<Write>)
    requires forall x :: x in xs ==> !x.PutMailbox? && !x.Quarantine?
    ensures var t := ApplyAll(w, xs); t.quarantine == w.quarantine && t.log == w.log && t.mailbox == w.mailbox
    decreases |xs|
  {
    if xs != [] { QuietPlaces(registered, Apply(w, xs[0]), xs[1..]); }
  }

  lemma PutMailboxPlaces(registered: Delivery -> bool, w: World, d: Delivery)
    requires Placed(registered, w) && registered(d)
    ensures Placed(registered, Apply(w, PutMailbox(d)))
  {
  }

  lemma RoutePlaces(registered: Delivery -> bool, w: World, id: Id, at: int, k: nat)
    requires Good(w) && Placed(registered, w)
    ensures Placed(registered, Crash(w, RouteWrites(registered, w, id, at), k))
  {
    hide Placed, Good;
    var xs := RouteWrites(registered, w, id, at);
    assert xs[..0] == [];
    ApplyOne(w, DropInbox(id));
    ApplyOne(w, Quarantine(id));
    if id in w.receipts {
      assert xs[..1] == [DropInbox(id)];
      AsidePlaces(registered, w, id, DropInbox(id));
    } else if id in w.inbox && w.inbox[id].Readable? && registered(w.inbox[id].delivery) {
      var d := w.inbox[id].delivery;
      CrashThree(w, PutMailbox(d), PutReceipt(id, at), DropInbox(id), k);
      PutMailboxPlaces(registered, w, d);
      if k > 0 { SamePlaces(registered, Apply(w, PutMailbox(d)), Crash(w, xs, k)); }
    } else if id in w.inbox {
      assert xs[..1] == [Quarantine(id)];
      AsidePlaces(registered, w, id, Quarantine(id));
    }
  }

  lemma SamePlaces(registered: Delivery -> bool, w: World, t: World)
    requires t.quarantine == w.quarantine && t.log == w.log && t.mailbox == w.mailbox
    ensures Placed(registered, w) ==> Placed(registered, t)
  {
  }

  lemma AsidePlaces(registered: Delivery -> bool, w: World, id: Id, x: Write)
    requires Placed(registered, w)
    requires x == DropInbox(id) || (x == Quarantine(id) && id in w.inbox
             && (w.inbox[id].Unreadable? || !registered(w.inbox[id].delivery)))
    ensures Placed(registered, Apply(w, x))
  {
  }

  lemma StepPlaces(registered: Delivery -> bool, w: World, a: Attempt)
    requires Good(w) && Placed(registered, w)
    ensures Placed(registered, Step(registered, w, a))
  {
    hide Good, Placed;
    if a.call.Route? {
      RoutePlaces(registered, w, a.call.id, a.call.at, a.writes);
    } else {
      var xs := CallWrites(registered, w, a.call);
      QuietPlaces(registered, w, if a.writes <= |xs| then xs[..a.writes] else xs);
      SamePlaces(registered, w, Step(registered, w, a));
    }
  }

  /** Over every run of crashing calls only what cannot be delivered is in quarantine, only registered
      deliveries are written, each to the mailbox of its repository, and an accepted registered delivery is
      in the inbox or its identifier is in that mailbox. */
  lemma {:induction false} RegisteredArrive(registered: Delivery -> bool, w: World, run: seq<Attempt>)
    requires Good(w) && Placed(registered, w)
    ensures var t := Run(registered, w, run);
            && Placed(registered, t)
            && forall d :: d in t.accepted && registered(d) ==>
                 (d.id in t.inbox && t.inbox[d.id] == Readable(d)) || (d in t.log && d.id in BoxOf(t, d.repoId))
    decreases |run|
  {
    hide Good, Placed, Step;
    if run == [] {
      AcceptedArrive(registered, w);
    } else {
      StepKeeps(registered, w, run[0]);
      StepPlaces(registered, w, run[0]);
      RegisteredArrive(registered, Step(registered, w, run[0]), run[1..]);
    }
  }

  lemma AcceptedArrive(registered: Delivery -> bool, w: World)
    requires Good(w) && Placed(registered, w)
    ensures forall d :: d in w.accepted && registered(d) ==>
              (d.id in w.inbox && w.inbox[d.id] == Readable(d)) || (d in w.log && d.id in BoxOf(w, d.repoId))
  {
    forall d | d in w.accepted && registered(d)
      ensures (d.id in w.inbox && w.inbox[d.id] == Readable(d)) || (d in w.log && d.id in BoxOf(w, d.repoId))
    {
      assert Filed(w, d);
    }
  }

  // ---------------------------------------------------------------- routed once

  /** How often the mailbox was written under an identifier. */
  function Writes(log: seq<Delivery>, id: Id): nat {
    if log == [] then 0 else (if log[|log| - 1].id == id then 1 else 0) + Writes(log[..|log| - 1], id)
  }

  /** The one write an identifier without a receipt still has coming. */
  function Allowance(w: World, id: Id): nat { if id in w.receipts then 0 else 1 }

  /** A routing of `id` that stops between the mailbox write and the receipt. */
  predicate CutShort(registered: Delivery -> bool, w: World, a: Attempt, id: Id) {
    a.call.Route? && a.call.id == id && |RouteWrites(registered, w, id, a.call.at)| == 3 && a.writes == 1
  }

  function CutsShort(registered: Delivery -> bool, w: World, run: seq<Attempt>, id: Id): nat
    decreases |run|
  {
    if run == [] then 0
    else
      var rest := CutsShort(registered, Step(registered, w, run[0]), run[1..], id);
      if CutShort(registered, w, run[0], id) then 1 + rest else rest
  }

  /** No compaction of the run drops the receipt of `id`. */
  predicate KeepsReceipt(registered: Delivery -> bool, w: World, run: seq<Attempt>, id: Id)
    decreases |run|
  {
    run == [] ||
    ((run[0].call.Compact? ==> DropReceipt(id) !in CallWrites(registered, w, run[0].call))
     && KeepsReceipt(registered, Step(registered, w, run[0]), run[1..], id))
  }

  lemma LogGrows(log: seq<Delivery>, d: Delivery, id: Id)
    ensures Writes(log + [d], id) == Writes(log, id) + (if d.id == id then 1 else 0)
  {
    assert (log + [d])[..|log|] == log;
  }

  lemma {:induction false} QuietWrites(w: World, xs: seq<Write>, id: Id)
    requires forall x :: x in xs ==> !x.PutMailbox? && x != DropReceipt(id)
    ensures ApplyAll(w, xs).log == w.log
    ensures id in w.receipts ==> id in ApplyAll(w, xs).receipts
    decreases |xs|
  {
    if xs != [] { QuietWrites(Apply(w, xs[0]), xs[1..], id); }
  }

  /** The worlds a list of three writes passes through. */
  lemma CrashThree(w: World, x: Write, y: Write, z: Write, k: nat)
    ensures Crash(w, [x, y, z], k) ==
            if k == 0 then w else if k == 1 then Apply(w, x) else if k == 2 then Apply(Apply(w, x), y)
            else Apply(Apply(Apply(w, x), y), z)
  {
    var w1, w2 := Apply(w, x), Apply(Apply(w, x), y);
    assert [x, y, z][..0] == [] && [x, y, z][..1] == [x] && [x, y, z][..2] == [x, y] && [x, y, z][..3] == [x, y, z];
    assert [x][1..] == [] && [x, y][1..] == [y] && [y][1..] == [] && [x, y, z][1..] == [y, z] && [y, z][1..] == [z]
        && [z][1..] == [];
    assert ApplyAll(w, [x]) == ApplyAll(w1, []) == w1;
    assert ApplyAll(w, [x, y]) == ApplyAll(w1, [y]) == ApplyAll(w2, []) == w2;
    assert ApplyAll(w, [x, y, z]) == ApplyAll(w1, [y, z]) == ApplyAll(w2, [z]) == ApplyAll(Apply(w2, z), []);
  }

  lemma RouteCounts(registered: Delivery -> bool, w: World, a: Attempt, id: Id)
    requires Good(w) && a.call.Route? && |RouteWrites(registered, w, a.call.id, a.call.at)| == 3
    ensures var t := Step(registered, w, a);
            Writes(t.log, id) + Allowance(t, id)
            <= Writes(w.log, id) + Allowance(w, id) + (if CutShort(registered, w, a, id) then 1 else 0)
  {
    hide Crash, Writes;
    var d := w.inbox[a.call.id].delivery;
    assert d.id == a.call.id;
    CrashThree(w, PutMailbox(d), PutReceipt(a.call.id, a.call.at), DropInbox(a.call.id), a.writes);
    LogGrows(w.log, d, id);
  }

  lemma QuietCall(registered: Delivery -> bool, w: World, a: Attempt)
    requires !(a.call.Route? && |RouteWrites(registered, w, a.call.id, a.call.at)| == 3)
    ensures forall x :: x in CallWrites(registered, w, a.call) ==> !x.PutMailbox?
    ensures !a.call.Compact? ==> forall x :: x in CallWrites(registered, w, a.call) ==> !x.DropReceipt?
  {
  }

  lemma StepCounts(registered: Delivery -> bool, w: World, a: Attempt, id: Id)
    requires Good(w) && (a.call.Compact? ==> DropReceipt(id) !in CallWrites(registered, w, a.call))
    ensures var t := Step(registered, w, a);
            Writes(t.log, id) + Allowance(t, id)
            <= Writes(w.log, id) + Allowance(w, id) + (if CutShort(registered, w, a, id) then 1 else 0)
  {
    hide Good, Writes;
    if a.call.Route? && |RouteWrites(registered, w, a.call.id, a.call.at)| == 3 {
      RouteCounts(registered, w, a, id);
    } else {
      var xs := CallWrites(registered, w, a.call);
      QuietCall(registered, w, a);
      QuietWrites(w, if a.writes <= |xs| then xs[..a.writes] else xs, id);
    }
  }

  /** While the receipt is kept, an identifier is written to the mailbox at most once more than its
      routing was cut short between mailbox and receipt; with a receipt, not at all. */
  lemma {:induction false} RoutedOnce(registered: Delivery -> bool, w: World, run: seq<Attempt>, id: Id)
    requires Good(w) && KeepsReceipt(registered, w, run, id)
    ensures Writes(Run(registered, w, run).log, id)
            <= Writes(w.log, id) + Allowance(w, id) + CutsShort(registered, w, run, id)
    decreases |run|
  {
    hide Good, Step, Writes, CutShort;
    if run != [] {
      StepCounts(registered, w, run[0], id);
      StepKeeps(registered, w, run[0]);
      RoutedOnce(registered, Step(registered, w, run[0]), run[1..], id);
    }
  }

  // ---------------------------------------------------------------- compaction

  lemma {:induction false} ExpiredAre(receipts: map<Id, int>, cutoff: int, ids: seq<Id>)
    ensures forall id :: id in Expired(receipts, cutoff, ids) <==> id in ids && id in receipts && receipts[id] < cutoff
    ensures forall id :: id in Young(receipts, cutoff, ids) <==> id in ids && id in receipts && receipts[id] >= cutoff
  {
    if ids != [] { ExpiredAre(receipts, cutoff, ids[1..]); }
  }

  lemma SortedYoung(receipts: map<Id, int>, cutoff: int, ids: seq<Id>)
    ensures var young, sorted := Young(receipts, cutoff, ids), Sort(Young(receipts, cutoff, ids), ByAge(receipts));
            && Ascending(sorted, ByAge(receipts)) && |sorted| == |young|
            && forall id :: id in sorted <==> id in young
  {
    var young := Young(receipts, cutoff, ids);
    var sorted := Sort(young, ByAge(receipts));
    SortAscends(young, ByAge(receipts));
    assert |multiset(sorted)| == |multiset(young)|;
    forall id ensures id in sorted <==> id in young {
      SortHolds(young, ByAge(receipts), id);
    }
  }

  /** Compaction drops every expired receipt and, unless there are more than the limit, no other. */
  lemma CompactionDropsExpired(receipts: map<Id, int>, cutoff: int, limit: nat, ids: seq<Id>)
    ensures var dropped, young := Dropped(receipts, cutoff, limit, ids), Young(receipts, cutoff, ids);
            && (forall id :: id in ids && id in receipts && receipts[id] < cutoff ==> id in dropped)
            && (forall id :: id in dropped ==> id in ids && id in receipts)
            && (|young| <= limit ==> forall id :: id in dropped ==> Age(receipts, id) < cutoff)
            && |dropped| == |Expired(receipts, cutoff, ids)| + (if |young| > limit then |young| - limit else 0)
  {
    hide Sort, Expired, Young;
    ExpiredAre(receipts, cutoff, ids);
    SortedYoung(receipts, cutoff, ids);
    var young, sorted := Young(receipts, cutoff, ids), Sort(Young(receipts, cutoff, ids), ByAge(receipts));
    if |young| > limit {
      assert forall id :: id in sorted[..|sorted| - limit] ==> id in sorted;
    }
  }

  /** Of the receipts that are not expired it never drops one that is newer than one it keeps. */
  lemma CompactionKeepsNewest(receipts: map<Id, int>, cutoff: int, limit: nat, ids: seq<Id>, a: Id, b: Id)
    requires var dropped := Dropped(receipts, cutoff, limit, ids);
             a in dropped && Age(receipts, a) >= cutoff && b in Young(receipts, cutoff, ids) && b !in dropped
    ensures Age(receipts, a) <= Age(receipts, b)
  {
    hide Sort, Expired, Young;
    ExpiredAre(receipts, cutoff, ids);
    SortedYoung(receipts, cutoff, ids);
    var sorted := Sort(Young(receipts, cutoff, ids), ByAge(receipts));
    var cut := |sorted| - limit;
    assert a in sorted[..cut];
    var i :| 0 <= i < cut && sorted[i] == a;
    assert b in sorted;
    var j :| 0 <= j < |sorted| && sorted[j] == b;
    assert j >= cut;
    assert ByAge(receipts)(sorted[i]) <= ByAge(receipts)(sorted[j]);
  }

  // ---------------------------------------------------------------- the broker

  class Service {
    const registered: Delivery -> bool
    var inbox: map<Id, InboxFile>
    var receipts: map<Id, int>
    var quarantine: set<(Id, InboxFile)>
    var mailbox: map<string, Box>
    var budget: nat
    ghost var accepted: set<Delivery>
    ghost var log: seq<Delivery>

    ghost function View(): World
      reads this
    {
      World(inbox, receipts, quarantine, mailbox, accepted, log)
    }

    /** Where the files stand when `xs` is made with this budget. */
    ghost predicate Made(was: World, had: nat, xs: seq<Write>)
      reads this
    {
      View() == Crash(was, xs, had) && budget == (if |xs| <= had then had - |xs| else 0)
    }

    constructor (registered: Delivery -> bool, budget: nat)
      ensures Good(View()) && View() == World(map[], map[], {}, map[], {}, [])
      ensures this.registered == registered && this.budget == budget
    {
      this.registered, this.budget := registered, budget;
      inbox, receipts, quarantine, mailbox, accepted, log := map[], map[], {}, map[], {}, [];
    }

    method Do(x: Write)
      modifies this
      ensures Made(old(View()), old(budget), [x])
    {
      assert [x][..1] == [x] && [x][..0] == [] && [x][1..] == [];
      assert ApplyAll(View(), [x]) == ApplyAll(Apply(View(), x), []);
      if budget == 0 { return; }
      budget := budget - 1;
      match x {
        case PutInbox(d) =>
          inbox, accepted := inbox[d.id := Readable(d)], accepted + {d};
        case PutMailbox(d) =>
          var box := if d.repoId in mailbox then mailbox[d.repoId] else map[];
          mailbox, log := mailbox[d.repoId := box[d.id := d]], log + [d];
        case PutReceipt(id, at) => receipts := receipts[id := at];
        case DropInbox(id) => inbox := inbox - {id};
        case Quarantine(id) =>
          if id in inbox { quarantine, inbox := quarantine + {(id, inbox[id])}, inbox - {id}; }
        case DropReceipt(id) => receipts := receipts - {id};
      }
    }

    /** Accepts a delivery unless its identifier is already known. */
    method AppendInbox(d: Delivery) returns (isNew: bool)
      modifies this
      ensures Made(old(View()), old(budget), AcceptWrites(old(View()), d))
      ensures isNew == (AcceptWrites(old(View()), d) != [])
    {
      MadeNothing(View(), budget);
      if d.id in receipts { return false; }
      if d.id in inbox { return false; }
      Do(PutInbox(d.(routed := false)));
      return true;
    }

    method RouteDelivery(id: Id, at: int)
      modifies this
      ensures Made(old(View()), old(budget), RouteWrites(registered, old(View()), id, at))
    {
      ghost var w, had := View(), budget;
      MadeNothing(w, had);
      if id in receipts {
        Do(DropInbox(id));
        return;
      }
      if id !in inbox { return; }
      if inbox[id].Unreadable? || !registered(inbox[id].delivery) {
        Do(Quarantine(id));
        return;
      }
      var d := inbox[id].delivery;
      MadeThree(w, had, PutMailbox(d), PutReceipt(id, at), DropInbox(id));
      Do(PutMailbox(d));
      Do(PutReceipt(id, at));
      Do(DropInbox(id));
    }

    method MigrateRouted(id: Id, at: int)
      modifies this
      ensures Made(old(View()), old(budget), MigrateWrites(old(View()), id, at))
    {
      MadeNothing(View(), budget);
      if id in inbox && inbox[id].Readable? && inbox[id].delivery.routed {
        MadeTwo(View(), budget, PutReceipt(id, at), DropInbox(id));
        Do(PutReceipt(id, at));
        Do(DropInbox(id));
      }
    }

    /** Scans the receipts, collecting the expired and the young ones. */
    method Scan(cutoff: int, ids: seq<Id>) returns (expired: seq<Id>, young: seq<Id>)
      ensures expired == Expired(receipts, cutoff, ids) && young == Young(receipts, cutoff, ids)
    {
      expired, young := [], [];
      for k := 0 to |ids|
        invariant expired + Expired(receipts, cutoff, ids[k..]) == Expired(receipts, cutoff, ids)
        invariant young + Young(receipts, cutoff, ids[k..]) == Young(receipts, cutoff, ids)
      {
        assert ids[k..][0] == ids[k] && ids[k..][1..] == ids[k + 1..];
        if ids[k] in receipts && receipts[ids[k]] < cutoff {
          expired := expired + [ids[k]];
        } else if ids[k] in receipts {
          young := young + [ids[k]];
        }
      }
    }

    method CompactReceipts(cutoff: int, limit: nat, ids: seq<Id>)
      modifies this
      ensures Made(old(View()), old(budget), DropAll(Dropped(old(receipts), cutoff, limit, ids)))
    {
      hide Crash, ApplyAll, Sort, Expired, Young;
      ghost var w, had := View(), budget;
      var expired, young := Scan(cutoff, ids);
      var sorted := Sort(young, ByAge(receipts));
      var drop := expired + if |sorted| > limit then sorted[..|sorted| - limit] else [];
      assert drop == Dropped(receipts, cutoff, limit, ids) by { SortedYoung(receipts, cutoff, ids); }
      MadeNothing(w, had);
      for k := 0 to |drop|
        invariant Made(w, had, DropAll(drop[..k]))
      {
        assert DropAll(drop[..k + 1]) == DropAll(drop[..k]) + [DropReceipt(drop[k])];
        MadeConcat(w, had, DropAll(drop[..k]), [DropReceipt(drop[k])]);
        Do(DropReceipt(drop[k]));
      }
      assert drop[..|drop|] == drop;
    }

    /** Any call, interrupted anywhere, keeps every accepted delivery. */
    method Serve(c: Call)
      modifies this
      ensures View() == Step(registered, old(View()), Attempt(c, old(budget)))
      ensures old(Good(View())) ==> Good(View())
    {
      hide Good, RouteWrites, AcceptWrites, MigrateWrites, Dropped;
      ghost var w := View();
      if Good(w) { StepKeeps(registered, w, Attempt(c, budget)); }
      match c {
        case Accept(d) => var _ := AppendInbox(d);
        case Route(id, at) => RouteDelivery(id, at);
        case Migrate(id, at) => MigrateRouted(id, at);
        case Compact(cutoff, limit, ids) => CompactReceipts(cutoff, limit, ids);
      }
    }
  }

  lemma MadeNothing(w: World, had: nat)
    ensures Crash(w, [], had) == w
  {
  }

  lemma {:induction false} ApplyConcat(w: World, a: seq<Write>, b: seq<Write>)
    ensures ApplyAll(w, a + b) == ApplyAll(ApplyAll(w, a), b)
    decreases |a|
  {
    if a == [] {
      assert a + b == b;
    } else {
      assert (a + b)[0] == a[0] && (a + b)[1..] == a[1..] + b;
      ApplyConcat(Apply(w, a[0]), a[1..], b);
    }
  }

  lemma MadeConcat(w: World, had: nat, a: seq<Write>, b: seq<Write>)
    ensures Crash(w, a + b, had) == Crash(Crash(w, a, had), b, if |a| <= had then had - |a| else 0)
  {
    if had < |a| {
      assert (a + b)[..had] == a[..had];
    } else if had <= |a + b| {
      assert (a + b)[..had] == a + b[..had - |a|] && a[..|a|] == a;
      ApplyConcat(w, a, b[..had - |a|]);
    } else {
      ApplyConcat(w, a, b);
    }
    assert b[..0] == [] && a[..|a|] == a;
  }

  lemma MadeTwo(w: World, had: nat, x: Write, y: Write)
    ensures Crash(w, [x, y], had) == Crash(Crash(w, [x], had), [y], if 1 <= had then had - 1 else 0)
  {
    assert [x, y] == [x] + [y];
    MadeConcat(w, had, [x], [y]);
  }

  lemma MadeThree(w: World, had: nat, x: Write, y: Write, z: Write)
    ensures var w1 := Crash(w, [x], had);
            var h1 := if 1 <= had then had - 1 else 0;
            Crash(w, [x, y, z], had) == Crash(Crash(w1, [y], h1), [z], if 1 <= h1 then h1 - 1 else 0)
  {
    assert [x, y, z] == [x] + [y, z];
    MadeConcat(w, had, [x], [y, z]);
    MadeTwo(Crash(w, [x], had), if 1 <= had then had - 1 else 0, y, z);
  }
}
