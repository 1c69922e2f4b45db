/** Isolating one Issue whose update left the aggregate invalid. */
module Isolation {
  import opened Wrappers
  import opened Lifecycle
  import opened Aggregate
  import opened Resolution
  import opened Sorting

  function RequestsOf(s: Aggregate, n: nat): set<Id> {
    set id | id in s.requests && s.requests[id].issue == n
  }

  function Lookup(m: map<Id, Request>, ids: seq<Id>): seq<Request>
    requires forall id :: id in ids ==> id in m
  {
    seq(|ids|, k requires 0 <= k < |ids| => m[ids[k]])
  }

  ghost function RecordFor(s: Aggregate, n: nat, lastValid: Option<Issue>, at: int): Record {
    var subject := if n in s.issues then Some(s.issues[n]) else lastValid;
    var requests := Lookup(s.requests, InOrder(RequestsOf(s, n)));
    if subject.Some?
    then Record(subject.value.runId, subject.value.generation, subject.value.status, lastValid, requests, at)
    else Record(0, 0, Unset, lastValid, requests, at)
  }

  /** Takes the Issue, its requests, its effect and its authority out of the aggregate. */
  ghost function Isolate(s: Aggregate, n: nat, lastValid: Option<Issue>, at: int): Aggregate {
    Aggregate(
      s.issues - {n}, s.quarantined[n := RecordFor(s, n, lastValid, at)], s.requests - RequestsOf(s, n),
          s.effects - {n},
      if s.active.Some? && s.active.value.issue == n then None else s.active, s.releasedAt)
  }

  /** Isolation is local: every other Issue, record, request, effect and execution is unchanged. */
  lemma IsolationIsLocal(s: Aggregate, n: nat, lastValid: Option<Issue>, at: int)
    ensures var t := Isolate(s, n, lastValid, at);
            && t.issues - {n} == s.issues - {n} && n !in t.issues
            && t.quarantined - {n} == s.quarantined - {n} && n in t.quarantined
            && t.effects - {n} == s.effects - {n} && n !in t.effects
            && (forall id :: id in t.requests <==> id in s.requests && s.requests[id].issue != n)
            && (forall id :: id in t.requests ==> t.requests[id] == s.requests[id])
            && (s.active.Some? && s.active.value.issue != n ==> t.active == s.active)
            && (t.active.Some? ==> t.active == s.active && t.active.value.issue != n)
  {
  }

  /** The Issue's requests are filed under their own identifiers. */
  predicate WellKeyed(s: Aggregate, n: nat) {
    forall id :: id in s.requests && s.requests[id].issue == n ==> s.requests[id].id == id
  }

  function RequestRank(): Request -> int { (r: Request) => r.id }

  /** Exactly the Issue's requests move into the record, sorted by identifier. */
  lemma IsolationMovesRequests(s: Aggregate, n: nat, lastValid: Option<Issue>, at: int)
    requires WellKeyed(s, n)
    ensures var moved: seq<Request> := Isolate(s, n, lastValid, at).quarantined[n].requests;
            && StrictlyAscending(moved, RequestRank())
            && forall r: Request :: r in moved <==> r.id in s.requests && s.requests[r.id] == r && r.issue == n
  {
    var ids := InOrder(RequestsOf(s, n));
    var moved: seq<Request> := Lookup(s.requests, ids);
    forall i, j: nat | 0 <= i < j < |moved| ensures RequestRank()(moved[i]) < RequestRank()(moved[j]) {
      assert ids[i] in ids && ids[j] in ids;
    }
    forall r: Request | r.id in s.requests && s.requests[r.id] == r && r.issue == n ensures r in moved {
      assert r.id in ids;
      var k :| 0 <= k < |ids| && ids[k] == r.id;
      assert moved[k] == r;
    }
    forall r: Request | r in moved ensures r.id in s.requests && s.requests[r.id] == r && r.issue == n {
      var k :| 0 <= k < |moved| && moved[k] == r;
      assert ids[k] in ids;
    }
  }

  /** Putting a list of requests back under their identifiers. */
  lemma {:induction false} PutAllHolds(m: map<Id, Request>, rs: seq<Request>)
    requires forall j, k :: 0 <= j < k < |rs| ==> rs[j].id != rs[k].id
    ensures forall id :: id in PutAll(m, rs) <==> id in m || exists k :: 0 <= k < |rs| && rs[k].id == id
    ensures forall k :: 0 <= k < |rs| ==> rs[k].id in PutAll(m, rs) && PutAll(m, rs)[rs[k].id] == rs[k]
    ensures forall id :: id in m && (forall k :: 0 <= k < |rs| ==> rs[k].id != id) ==> PutAll(m, rs)[id] == m[id]
    decreases |rs|
  {
    if rs != [] {
      var m1 := m[rs[0].id := rs[0]];
      assert forall k :: 1 <= k < |rs| ==> rs[k] == rs[1..][k - 1];
      PutAllHolds(m1, rs[1..]);
    }
  }

  lemma {:induction false} PutAllKeyed(m: map<Id, Request>, rs: seq<Request>, id: Id)
    requires id in PutAll(m, rs)
    ensures PutAll(m, rs)[id].id == id || (id in m && PutAll(m, rs)[id] == m[id])
    decreases |rs|
  {
    if rs != [] { PutAllKeyed(m[rs[0].id := rs[0]], rs[1..], id); }
  }

  lemma MovedDistinct(s: Aggregate, n: nat, lastValid: Option<Issue>, at: int)
    requires WellKeyed(s, n)
    ensures var moved := Isolate(s, n, lastValid, at).quarantined[n].requests;
            forall j, k :: 0 <= j < k < |moved| ==> moved[j].id != moved[k].id
  {
    var moved: seq<Request> := Isolate(s, n, lastValid, at).quarantined[n].requests;
    IsolationMovesRequests(s, n, lastValid, at);
    assert forall j, k :: 0 <= j < k < |moved| ==> RequestRank()(moved[j]) < RequestRank()(moved[k]);
  }

  lemma RestoredEntry(s: Aggregate, n: nat, lastValid: Option<Issue>, at: int, id: Id)
    requires WellKeyed(s, n)
    ensures var t := Isolate(s, n, lastValid, at);
            var back := PutAll(t.requests, t.quarantined[n].requests);
            (id in back <==> id in s.requests) && (id in back ==> back[id] == s.requests[id])
  {
    var t := Isolate(s, n, lastValid, at);
    var moved := t.quarantined[n].requests;
    IsolationMovesRequests(s, n, lastValid, at);
    MovedDistinct(s, n, lastValid, at);
    PutAllHolds(t.requests, moved);
    if id in s.requests && s.requests[id].issue == n {
      assert s.requests[id] in moved;
    } else {
      assert forall k :: 0 <= k < |moved| ==> moved[k] in moved;
    }
  }

  lemma RestoredTable(s: Aggregate, n: nat, lastValid: Option<Issue>, at: int)
    requires WellKeyed(s, n)
    ensures var t := Isolate(s, n, lastValid, at); PutAll(t.requests, t.quarantined[n].requests) == s.requests
  {
    hide PutAll, RecordFor, WellKeyed;
    forall id {
      RestoredEntry(s, n, lastValid, at, id);
    }
  }

  /** Isolation followed by the restoration of an answered checks retry gives back the request
      table there was before, exactly when the Issue's requests were filed under their own identifiers. */
  lemma RestoreUndoesIsolation(
      s: Aggregate, n: nat, lastValid: Option<Issue>, at: int, head: Id, digest: Id, mint: Id, later: int)
    requires RestoreAnsweredChecks(Isolate(s, n, lastValid, at), n, head, digest, mint, later).Some?
    ensures RestoreAnsweredChecks(Isolate(s, n, lastValid, at), n, head, digest, mint, later).value.requests
            == s.requests
            <==> WellKeyed(s, n)
  {
    var t := Isolate(s, n, lastValid, at);
    var back := PutAll(t.requests, t.quarantined[n].requests);
    if WellKeyed(s, n) { RestoredTable(s, n, lastValid, at); }
    if back == s.requests {
      forall id | id in s.requests && s.requests[id].issue == n ensures s.requests[id].id == id {
        PutAllKeyed(t.requests, t.quarantined[n].requests, id);
      }
    }
  }
}
