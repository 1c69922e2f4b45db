/** The mailbox of one repository: durable intents, one file a delivery identifier. */
module Mailbox {
  import opened Wrappers
  import opened Sorting

  type Id = string

  datatype Delivery = Delivery(
    id: Id, event: string, action: string, repository: string, repoId: string, repositoryId: nat,
    issue: nat, pullRequest: nat, acceptedAt: int, routed: bool)

  /** The same intent, whenever it was accepted. */
  predicate SameIntent(a: Delivery, b: Delivery) {
    a.id == b.id && a.repoId == b.repoId && a.issue == b.issue && a.pullRequest == b.pullRequest
    && a.event == b.event && a.action == b.action
  }

  type Box = map<Id, Delivery>

  /** Adding an intent: a repeat changes nothing, another intent under the same identifier is refused. */
  function Enqueue(m: Box, d: Delivery): Option<Box> {
    if d.id !in m then Some(m[d.id := d])
    else if SameIntent(m[d.id], d) then Some(m)
    else None
  }

  /** A new identifier is added; a known one is accepted, and changes nothing, exactly when it was filed for the same
      repository, Issue, pull request, event and action, whenever that was. */
  lemma EnqueueExactly(m: Box, d: Delivery)
    ensures d.id !in m ==> Enqueue(m, d).Some? && Enqueue(m, d).value == m[d.id := d]
    ensures d.id in m && m[d.id].id == d.id ==>
              var e := m[d.id];
              Enqueue(m, d) ==
              if e.repoId == d.repoId && e.issue == d.issue && e.pullRequest == d.pullRequest && e.event == d.event
                 && e.action == d.action then Some(m) else None
  {
  }

  function ByTime(): Delivery -> int { (d: Delivery) => d.acceptedAt }

  class Store {
    var files: Box

    constructor ()
      ensures files == map[]
    {
      files := map[];
    }

    method EnqueueMailbox(d: Delivery) returns (ok: bool)
      modifies this
      ensures ok <==> Enqueue(old(files), d).Some?
      ensures files == if ok then Enqueue(old(files), d).value else old(files)
    {
      if d.id in files { return SameIntent(files[d.id], d); }
      files := files[d.id := d];
      return true;
    }

    /** Removes acknowledged intents and only those. */
    method AckMailbox(acked: seq<Delivery>)
      modifies this
      ensures files == old(files) - (set d | d in acked :: d.id)
    {
      for k := 0 to |acked|
        invariant files == old(files) - (set d | d in acked[..k] :: d.id)
      {
        files := files - {acked[k].id};
        assert acked[..k + 1] == acked[..k] + [acked[k]];
      }
      assert acked[..|acked|] == acked;
    }

    /** All intents, oldest first. */
    method ReadMailbox() returns (result: seq<Delivery>)
      ensures Ascending(result, ByTime())
      ensures forall d :: d in result <==> d in files.Values
      ensures |result| == |files|
    {
      result := [];
      var todo := files.Keys;
      while todo != {}
        invariant todo <= files.Keys
        invariant forall d :: d in result <==> exists id :: id in files && id !in todo && files[id] == d
        invariant |result| + |todo| == |files.Keys|
      {
        var id :| id in todo;
        todo := todo - {id};
        result := result + [files[id]];
      }
      SortAscends(result, ByTime());
      forall d ensures d in Sort(result, ByTime()) <==> d in result {
        SortHolds(result, ByTime(), d);
      }
      assert |multiset(Sort(result, ByTime()))| == |multiset(result)|;
      result := Sort(result, ByTime());
    }
  }
}
