/**
 The snapshot under mutation: the object an update edits field by field before it
 is validated.  When an operation reports failure its partial edits are discarded
 with the update, so nothing is promised about them.
 */
module Draft {
  import opened Wrappers
  import opened Lifecycle
  import opened Aggregate
  import opened ExecutionSlot
  import opened Boundary
  import opened Resolution
  import opened Answers
  import opened Isolation
  import opened Sorting
  import Authority
  import CommittedIsolation

  class Snapshot {
    var issues: map<nat, Issue>
    var quarantined: map<nat, Record>
    var requests: map<Id, Request>
    var effects: map<nat, Effect>
    var active: Option<Execution>
    var releasedAt: int

    function Value(): Aggregate
      reads this
    {
      Aggregate(issues, quarantined, requests, effects, active, releasedAt)
    }

    constructor (s: Aggregate)
      ensures Value() == s
    {
      issues, quarantined, requests := s.issues, s.quarantined, s.requests;
      effects, active, releasedAt := s.effects, s.active, s.releasedAt;
    }

    // ---------------------------------------------------------------- lifecycle and effects

    /** Moves an Issue to a status, clearing what that status may not keep. */
    static method MoveIssue(before: Issue, to: Status) returns (i: Issue)
      ensures i == Move(before, to)
    {
      i := before;
      if to.Terminal() && !i.status.Terminal() && i.suspension.Some? && i.suspension.value.status.Resolved? {
        i := i.(suspension := None);
      }
      if i.status.Launching? && !to.Launching? { i := i.(launchSource := Unset); }
      i := i.(status := to);
      if to.Completed? { i := i.(continuation := None, suspension := None); }
    }

    method ApplyTransition(n: nat, d: Decision, at: int) returns (ok: bool)
      modifies this`issues
      ensures ok == ApplyTo(old(Value()), n, d, at).Some?
      ensures ok ==> Value() == ApplyTo(old(Value()), n, d, at).value
    {
      hide Decide, Move;
      if n !in issues { return false; }
      var to := Decide(d, issues[n].status);
      if to.None? { return false; }
      var i := MoveIssue(issues[n], to.value);
      issues := issues[n := i.(updatedAt := at)];
      return true;
    }

    method SetPendingEffect(n: nat, runId: Id, kind: Option<EffectKind>, mint: Id, at: int) returns (ok: bool)
      modifies this`effects
      ensures ok == SetEffect(old(Value()), n, runId, kind, mint, at).Some?
      ensures ok ==> Value() == SetEffect(old(Value()), n, runId, kind, mint, at).value
    {
      if n < 1 || runId == 0 || at == 0 { return false; }
      if kind.None? {
        effects := effects - {n};
        return true;
      }
      if n in effects && effects[n].runId == runId && effects[n].kind == kind.value { return true; }
      effects := effects[n := Effect(mint, runId, kind.value, at)];
      return true;
    }

    method ClearPendingEffect(n: nat, effectId: Id) returns (ok: bool)
      modifies this`effects
      ensures ok <==> n !in old(effects) || old(effects)[n].id == effectId
      ensures ok ==> n !in effects && effects - {n} == old(effects) - {n}
      ensures ok == ClearEffect(old(Value()), n, effectId).Some?
      ensures ok ==> Value() == ClearEffect(old(Value()), n, effectId).value
    {
      if n !in effects { return true; }
      if effects[n].id != effectId { return false; }
      effects := effects - {n};
      return true;
    }

    // ---------------------------------------------------------------- the slot

    /** Appends the answers to intake questions, skipping what the Issue already has. */
    method DeliverIntake(n: nat, order: seq<Id>, before: seq<Answer>) returns (answers: seq<Answer>)
      ensures answers == Deliver(requests, n, order, before)
    {
      answers := before;
      for k := 0 to |order|
        invariant Deliver(requests, n, order[k..], answers) == Deliver(requests, n, order, before)
      {
        var id := order[k];
        assert order[k..][1..] == order[k + 1..];
        if id in requests && IntakeAnswered(requests[id], n) {
          var r := requests[id];
          var found := false;
          for j := 0 to |answers|
            invariant found <==> exists m :: 0 <= m < j && answers[m].requestId == r.id
          {
            if answers[j].requestId == r.id { found := true; }
          }
          if !found { answers := answers + [AnswerOf(r)]; }
        }
      }
    }

    method StartExecution(n: nat, runId: Id, baseSha: Id, at: int, order: seq<Id>) returns (ok: bool)
      modifies this
      ensures ok == Start(old(Value()), n, runId, baseSha, at, order).Some?
      ensures ok ==> Value() == Start(old(Value()), n, runId, baseSha, at, order).value
    {
      hide Deliver;
      if n < 1 || runId == 0 || n in quarantined { return false; }
      if active.Some? {
        return active.value.issue == n && active.value.runId == runId;
      }
      if exists id :: id in requests && requests[id].issue == n && requests[id].status.Pending? { return false; }
      var i := if n in issues then issues[n] else NEW_ISSUE;
      var claim := Transition(i, StartClaim);
      if claim.None? { return false; }
      i := claim.value;
      i := i.(generation := i.generation + 1, runId := runId);
      var answers := DeliverIntake(n, order, i.answers);
      i := i.(answers := answers);
      if i.attempts == 0 { i := i.(attempts := 1); }
      issues := issues[n := i.(updatedAt := at)];
      active := Some(Execution(n, runId, i.generation, baseSha, at));
      return true;
    }

    method ReleaseExecution(n: nat, x: Identity) returns (ok: bool)
      modifies this`active, this`issues
      ensures ok == Release(old(Value()), n, x).Some?
      ensures ok ==> Value() == Release(old(Value()), n, x).value
    {
      if !Owns(Value(), n, x) { return false; }
      if n !in issues || !IsIdentity(issues[n], x) { return false; }
      active := None;
      issues := issues[n := issues[n].(worker := 0)];
      return true;
    }

    method CaptureContinuation(n: nat, x: Identity, checkpointId: Id, at: int) returns (ok: bool)
      modifies this`active, this`issues
      ensures ok == Capture(old(Value()), n, x, checkpointId, at).Some?
      ensures ok ==> Value() == Capture(old(Value()), n, x, checkpointId, at).value
    {
      if checkpointId == 0 || at == 0 || !Owns(Value(), n, x) || n !in issues { return false; }
      var i := issues[n];
      if i.suspension.Some? && i.suspension.value.status.Resolved? { i := i.(suspension := None); }
      i := i.(continuation := Some(Checkpoint(
                checkpointId, at, x.runId, x.generation, active.value.baseSha, i.workspace, i.session,
                i.headSha, 0, i.prUrl, i.prNumber, StageForStatus(i.status), false, 0, 0, 0)));
      issues := issues[n := i];
      ok := ReleaseExecution(n, x);
    }

    method ResumeContinuation(n: nat, checkpointId: Id, at: int) returns (ok: bool)
      modifies this`active, this`issues
      ensures ok == ResumeFrom(old(Value()), n, checkpointId, at).Some?
      ensures ok ==> Value() == ResumeFrom(old(Value()), n, checkpointId, at).value
    {
      if at == 0 || active.Some? || n !in issues { return false; }
      var i := issues[n];
      if i.continuation.None? || i.continuation.value.id != checkpointId { return false; }
      var c := i.continuation.value;
      if c.runId != i.runId || c.generation == 0 || c.generation > i.generation { return false; }
      i := i.(generation := i.generation + 1);
      issues := issues[n := i];
      active := Some(Execution(n, i.runId, i.generation, c.baseSha, at));
      return true;
    }

    method TransferExecution(n: nat, x: Identity, newRun: Id, at: int) returns (ok: bool)
      modifies this`active, this`issues
      ensures ok == Transfer(old(Value()), n, x, newRun, at).Some?
      ensures ok ==> Value() == Transfer(old(Value()), n, x, newRun, at).value
    {
      if newRun == 0 || at == 0 || !Owns(Value(), n, x) { return false; }
      if n !in issues || !IsIdentity(issues[n], x) { return false; }
      var i := issues[n].(generation := issues[n].generation + 1, runId := newRun);
      issues := issues[n := i];
      active := Some(active.value.(runId := newRun, generation := i.generation, startedAt := at));
      return true;
    }

    /** Gives back the authority of a conflict launch that never started. */
    method RecoverUnstartedLaunch(n: nat, expected: Execution, at: int) returns (ok: bool)
      modifies this
      ensures ok == RecoverUnstarted(old(Value()), n, expected, at).Some?
      ensures ok ==> Value() == RecoverUnstarted(old(Value()), n, expected, at).value
    {
      hide Decide, Move, Release, UnstartedConflictLaunch;
      if active != Some(expected) || !UnstartedConflictLaunch(Value(), n) { return false; }
      LaunchHasIssue(Value(), n);
      var i := issues[n];
      ok := ReleaseExecution(n, Identity(i.runId, i.generation));
      if ok { ok := ApplyTransition(n, AbortWorkerLaunch(i.launchSource), at); }
    }

    // ---------------------------------------------------------------- the boundary

    /** Sorts the offered actions and compacts them in place. */
    method AllowedActions(i: Issue) returns (actions: seq<Action>)
      ensures actions == Canonical(OfferedActions(i), ByName())
    {
      var sorted := Sort(OfferedActions(i), ByName());
      var a := new Action[|sorted|](k requires 0 <= k < |sorted| => sorted[k]);
      assert a[..] == sorted;
      var kept := CompactInPlace(a);
      return a[..kept];
    }

    /** Gives a suspended Issue a suspension unless it has one. */
    method EnsureTerminalSuspension(n: nat, id: Id, at: int)
      requires n in issues
      modifies this`issues
      ensures issues == old(issues)[n := if old(issues)[n].status.Completed? then old(issues)[n]
              else AtBoundary(old(issues)[n], id, at)]
    {
      var i := issues[n];
      if !i.status.Suspended() || i.suspension.Some? { return; }
      var actions := AllowedActions(i);
      issues := issues[n := i.(suspension := Some(TerminalSuspension(i, id, at).(actions := actions)))];
    }

    /** Releases authority that the lifecycle no longer backs. */
    method ReleaseAuthority(m: Mint, at: int)
      modifies this`active, this`issues
      ensures Value() == ReleaseBoundary(old(Value()), m, at)
    {
      hide KeepCheckpoint;
      if active.Some? {
        var a := active.value;
        if a.issue !in issues || !issues[a.issue].status.RequiresActiveExecution() {
          if a.issue in issues {
            issues := issues[a.issue := Parked(issues[a.issue], a, m.checkpoint, at)];
          }
          active := None;
        }
      }
    }

    /** Settles one terminal Issue. */
    method SettleIssue(n: nat, id: Id, at: int)
      requires n in issues
      modifies this`issues
      ensures issues == old(issues)[n := AtBoundary(old(issues)[n], id, at)]
    {
      if issues[n].status.Completed? {
        issues := issues[n := issues[n].(continuation := None, suspension := None)];
      } else {
        EnsureTerminalSuspension(n, id, at);
      }
    }

    /** Releases authority, then settles every terminal Issue in whatever order they are visited. */
    method FinalizeLifecycleBoundaries(m: Mint, at: int)
      modifies this`active, this`issues
      ensures Value() == Finalize(old(Value()), m, at)
    {
      hide AtBoundary, ReleaseBoundary;
      ReleaseAuthority(m, at);
      ghost var before := issues;
      var todo := issues.Keys;
      while todo != {}
        invariant todo <= issues.Keys == before.Keys
        invariant Value() == ReleaseBoundary(old(Value()), m, at).(issues := issues)
        invariant forall n :: n in issues ==>
                    issues[n] == if n in todo then before[n] else AtBoundary(before[n], m.suspension(n), at)
      {
        var n :| n in todo;
        todo := todo - {n};
        SettleIssue(n, m.suspension(n), at);
      }
      assert issues == map n | n in before :: AtBoundary(before[n], m.suspension(n), at);
    }

    // ---------------------------------------------------------------- isolation and restoration

    /** Takes the Issue's requests out of the table, in whatever order they are visited. */
    method CollectRequests(n: nat) returns (collected: seq<Request>)
      modifies this`requests
      ensures requests == old(requests) - RequestsOf(old(Value()), n)
      ensures forall r: Request :: r in collected <==> r in old(requests).Values && r.issue == n
      ensures WellKeyed(old(Value()), n) ==> NoRepeats(collected)
      ensures WellKeyed(old(Value()), n) ==>
                forall r: Request :: r in collected <==>
                  r.id in old(requests) && old(requests)[r.id] == r && r.issue == n
    {
      ghost var was := requests;
      collected := [];
      var todo := requests.Keys;
      while todo != {}
        invariant todo <= requests.Keys <= was.Keys
        invariant forall id :: id in requests <==> id in was && (id in todo || was[id].issue != n)
        invariant forall id :: id in requests ==> requests[id] == was[id]
        invariant forall r: Request :: r in collected <==>
                    exists id :: id in was && id !in todo && was[id] == r && r.issue == n
        invariant WellKeyed(old(Value()), n) ==> NoRepeats(collected)
        invariant WellKeyed(old(Value()), n) ==>
                    forall r: Request :: r in collected <==>
                      r.id in was && r.id !in todo && was[r.id] == r && r.issue == n
      {
        var id :| id in todo;
        todo := todo - {id};
        if requests[id].issue == n {
          collected := collected + [requests[id]];
          requests := requests - {id};
        }
      }
      assert requests == was - RequestsOf(old(Value()), n);
    }

    /** Moves one Issue, its requests and its effect into a quarantine record.  Requests filed under
        another identifier than their own leave the order of the record open. */
    method IsolateInvalidIssue(n: nat, lastValid: Option<Issue>, at: int)
      modifies this
      ensures WellKeyed(old(Value()), n) ==> Value() == Isolate(old(Value()), n, lastValid, at)
      ensures Value() == Isolate(old(Value()), n, lastValid, at).(quarantined := quarantined)
      ensures n in quarantined && quarantined - {n} == old(quarantined) - {n}
      ensures quarantined[n] ==
              Isolate(old(Value()), n, lastValid, at).quarantined[n].(requests := quarantined[n].requests)
      ensures forall r: Request :: r in quarantined[n].requests <==> r in old(requests).Values && r.issue == n
    {
      hide Sort, NoRepeats, InOrder, Lookup;
      var subject := if n in issues then Some(issues[n]) else lastValid;
      issues := issues - {n};
      var collected := CollectRequests(n);
      effects := effects - {n};
      if WellKeyed(old(Value()), n) { SortedIsRecorded(old(Value()), n, lastValid, at, collected); }
      if active.Some? && active.value.issue == n { active := None; }
      var sorted := Sort(collected, RequestRank());
      forall r: Request ensures r in sorted <==> r in collected { SortHolds(collected, RequestRank(), r); }
      var record := if subject.Some?
        then Record(subject.value.runId, subject.value.generation, subject.value.status, lastValid, sorted, at)
        else Record(0, 0, Unset, lastValid, sorted, at);
      quarantined := quarantined[n := record];
    }

    /** Ends an update whose mutation is done: the boundary, validation, isolation when it fails, and
        the stamp of a slot given back. */
    method FinishUpdate(rest: Aggregate -> bool, was: Aggregate, u: Authority.Update) returns (ok: bool)
      modifies this
      ensures var t := Finalize(old(Value()), u.mint, u.now);
              var committed := Authority.Settle(rest, was, t, u);
              Valid(rest, t) || WellKeyed(t, u.issue) ==>
                ok == committed.Some? && (ok ==> Value() == committed.value)
    {
      hide Valid, Finalize, Isolate, WellKeyed;
      FinalizeLifecycleBoundaries(u.mint, u.now);
      if !Valid(rest, Value()) {
        if u.issue < 1 { return false; }
        IsolateInvalidIssue(u.issue, if u.issue in was.issues then Some(was.issues[u.issue]) else None, u.now);
        if !Valid(rest, Value()) { return false; }
      }
      if was.active.Some? && active.None? { releasedAt := u.now; }
      return Valid(rest, Value());
    }

    /** Puts the quarantined requests back, one by one. */
    method ReturnRequests(rs: seq<Request>)
      modifies this`requests
      ensures requests == PutAll(old(requests), rs)
    {
      for k := 0 to |rs|
        invariant PutAll(requests, rs[k..]) == PutAll(old(requests), rs)
      {
        assert rs[k..][0] == rs[k] && rs[k..][1..] == rs[k + 1..];
        requests := requests[rs[k].id := rs[k]];
      }
    }

    method RestoreChecks(n: nat, head: Id, digest: Id, mint: Id, at: int) returns (ok: bool)
      modifies this
      ensures ok == RestoreAnsweredChecks(old(Value()), n, head, digest, mint, at).Some?
      ensures ok ==> Value() == RestoreAnsweredChecks(old(Value()), n, head, digest, mint, at).value
    {
      if n !in quarantined || !ChecksCandidate(quarantined[n], n) { return false; }
      var q := quarantined[n];
      var i := q.lastValid.value;
      if n in issues || active.Some? || head == 0 || digest == 0 || at == 0 { return false; }
      for k := 0 to |q.requests|
        invariant forall j :: 0 <= j < k ==> q.requests[j].id !in requests
        invariant Value() == old(Value())
      {
        if q.requests[k].id in requests { return false; }
      }
      i := i.(continuation := Some(Checkpoint(
                mint, at, i.runId, i.generation, i.continuation.value.baseSha, i.workspace, i.session,
                head, digest, i.prUrl, i.prNumber, ChecksStage, false, 0, 0, 0)));
      i := Move(i, AwaitingChecks);
      issues := issues[n := i.(retryAfter := 0, updatedAt := at)];
      ReturnRequests(q.requests);
      quarantined := quarantined - {n};
      return true;
    }

    method CancelPendingRequests(n: nat)
      modifies this`requests
      ensures Value() == CancelPending(old(Value()), n)
    {
      var todo := requests.Keys;
      ghost var was := requests;
      while todo != {}
        invariant todo <= requests.Keys == was.Keys
        invariant forall id :: id in requests ==>
                    requests[id] == if id !in todo && was[id].issue == n && was[id].status.Pending?
                                    then was[id].(status := Withdrawn) else was[id]
      {
        var id :| id in todo;
        todo := todo - {id};
        if requests[id].issue == n && requests[id].status.Pending? {
          requests := requests[id := requests[id].(status := Withdrawn)];
        }
      }
    }

    // ---------------------------------------------------------------- cancellation

    method CancelNotPlannedIssue(n: nat, status: Status, x: Identity, at: int) returns (ok: bool)
      modifies this
      ensures ok == CancelNotPlanned(old(Value()), n, status, x, at).Some?
      ensures ok ==> Value() == CancelNotPlanned(old(Value()), n, status, x, at).value
    {
      hide Move, Reconcile, HasPending;
      if at == 0 || !CancelAllowed(Value(), n, status, x) { return false; }
      var released := false;
      if active.Some? && active.value.issue == n {
        released := ReleaseExecution(n, x);
        if !released { return false; }
      }
      effects := effects - {n};
      var i := issues[n];
      var j := MoveIssue(i, Canceled);
      if j.suspension.Some? { j := j.(suspension := Some(Resolution.Resolved(j.suspension.value, Cancel, at))); }
      j := j.(cancellation := Some(Cancellation(GitHubNotPlanned, i.status, released, at)));
      issues := issues[n := j.(lastError := 0, retryAfter := 0, updatedAt := at)];
      return true;
    }

    method CancelQuarantinedIssue(n: nat, at: int) returns (ok: bool)
      modifies this
      ensures ok == CancelQuarantined(old(Value()), n, at).Some?
      ensures ok ==> Value() == CancelQuarantined(old(Value()), n, at).value
    {
      if n !in quarantined || n in issues || at == 0 { return false; }
      if active.Some? && active.value.issue == n { return false; }
      var q := quarantined[n];
      var i := NEW_ISSUE;
      if q.lastValid.Some? {
        var v := q.lastValid.value;
        i := i.(worktree := v.worktree, workspace := v.workspace, session := v.session, answers := v.answers);
        i := i.(attempts := v.attempts, prUrl := v.prUrl, prNumber := v.prNumber, headSha := v.headSha);
        i := i.(merged := v.merged, details := v.details);
      }
      i := i.(runId := q.runId, generation := q.generation, status := Canceled);
      i := i.(cancellation := Some(Cancellation(OperatorQuarantine, Blocked, false, at)), updatedAt := at);
      issues := issues[n := i];
      quarantined := quarantined - {n};
      return true;
    }

    method RestoreQuestion(n: nat, head: Id, digest: Id, at: int) returns (ok: bool)
      modifies this
      ensures ok == RestoreInput(old(Value()), n, head, digest, at).Some?
      ensures ok ==> Value() == RestoreInput(old(Value()), n, head, digest, at).value
    {
      hide Move;
      if n !in quarantined || !InputCandidate(quarantined[n]) { return false; }
      var i, r := quarantined[n].lastValid.value, quarantined[n].requests[0];
      if r.issue != n || n in issues || active.Some? || head == 0 || digest == 0 || at == 0 { return false; }
      if r.id in requests { return false; }
      var c := Checkpoint(r.checkpointId, r.createdAt, i.runId, i.generation, i.continuation.value.baseSha, i.workspace,
                          i.session, head, digest, 0, 0, ResumeStage, true, r.id, 0, 0);
      i := i.(suspension := None, worker := 0, continuation := Some(c));
      var j := MoveIssue(i, NeedsInput);
      issues := issues[n := j.(lastError := 0, failureKind := 0, retryAfter := 0, updatedAt := at)];
      requests := requests[r.id := r];
      quarantined := quarantined - {n};
      return true;
    }

    // ---------------------------------------------------------------- operator resolution

    /** Appends the observed paths, then sorts and compacts the list in place. */
    method ExtendAllowedPaths(r: Conflict, paths: seq<Path>) returns (extended: Conflict)
      ensures extended == ExtendPaths(r, paths)
    {
      var sorted := Sort(r.allowedPaths + paths, ByValue());
      var a := new Path[|sorted|](k requires 0 <= k < |sorted| => sorted[k]);
      assert a[..] == sorted;
      var kept := CompactInPlace(a);
      return r.(allowedPaths := a[..kept]);
    }

    method CloseResolved(n: nat, action: Action, at: int)
      requires n in issues
      modifies this`issues
      ensures Value() == CloseSuspension(old(Value()), n, action, at)
    {
      var i := issues[n];
      if i.suspension.Some? { i := i.(suspension := Some(Resolution.Resolved(i.suspension.value, action, at))); }
      issues := issues[n := i.(updatedAt := at)];
    }

    /** Moves the Issue on after the slot was taken, and leaves the effect for the supervisor. */
    method HandOverIssue(n: nat, to: Status, action: Action, o: Observation, mint: Id, at: int) returns (ok: bool)
      requires n in issues
      modifies this
      ensures ok == HandOver(old(Value()), n, to, action, o, mint, at).Some?
      ensures ok ==> Value() == HandOver(old(Value()), n, to, action, o, mint, at).value
    {
      hide Move, SetEffect;
      var j := MoveIssue(issues[n], to);
      if action.RetryStage? && StageOf(issues[n]).ChecksStage? {
        j := j.(headSha := o.headSha, prNumber := o.prNumber);
      }
      issues := issues[n := j];
      ok := SetPendingEffect(n, j.runId, Some(ApplyResolution), mint, at);
      if ok { CloseResolved(n, action, at); }
    }

    static method PrepareRetry(before: Issue, action: Action, o: Observation, at: int) returns (i: Issue)
      requires before.continuation.Some?
      ensures i == Retried(before, action, o, at)
    {
      i := before;
      if action.RetryStage? {
        var c := i.continuation.value;
        if i.conflict.Some? { i := i.(conflict := Some(i.conflict.value.(attempts := 0, updatedAt := at))); }
        if c.stage.PublishStage? {
          if o.repairHead { c := c.(headSha := o.headSha); }
          i := i.(continuation := Some(c.(summary := o.summary, resultSha := o.resultSha)));
        }
      }
    }

    method RelaunchIssue(n: nat, action: Action, o: Observation, mint: Id, at: int) returns (ok: bool)
      requires n in issues && issues[n].suspension.Some? && (action.Resume? || action.RetryStage?)
      modifies this
      ensures ok == Relaunch(old(Value()), n, action, o, mint, at).Some?
      ensures ok ==> Value() == Relaunch(old(Value()), n, action, o, mint, at).value
    {
      hide HandOver, Offered, Resolve, Retried;
      if !RelaunchAllowed(issues[n], action, o) { return false; }
      var to := Resolve(issues[n].status, action, StageOf(issues[n])).value;
      var c := issues[n].continuation.value.id;
      var i := PrepareRetry(issues[n], action, o, at);
      issues := issues[n := i];
      ok := ResumeContinuation(n, c, at);
      if ok { ok := HandOverIssue(n, to, action, o, mint, at); }
    }

    method AdoptMergedRequest(n: nat, o: Observation, mint: Id, at: int) returns (ok: bool)
      requires n in issues && issues[n].suspension.Some?
      modifies this
      ensures ok == AdoptMerged(old(Value()), n, o, mint, at).Some?
      ensures ok ==> Value() == AdoptMerged(old(Value()), n, o, mint, at).value
    {
      hide Move, Offered;
      var i := issues[n];
      if !Offered(i, AdoptPr) || Resolve(i.status, AdoptPr, StageOf(i)).None? { return false; }
      if o.prUrl == 0 || o.prNumber == 0 || o.headSha == 0 { return false; }
      i := i.(prUrl := o.prUrl, prNumber := o.prNumber, headSha := o.headSha, merged := true);
      i := i.(suspension := Some(Resolution.Resolved(i.suspension.value, AdoptPr, at)));
      issues := issues[n := i];
      ok := SetPendingEffect(n, i.runId, Some(MarkDone), mint, at);
      if !ok { return; }
      i := MoveIssue(i, Completed);
      issues := issues[n := i];
      CloseResolved(n, AdoptPr, at);
    }

    method CancelSuspendedIssue(n: nat, o: Observation, mint: Id, at: int) returns (ok: bool)
      requires n in issues && issues[n].suspension.Some?
      modifies this
      ensures ok == CancelSuspended(old(Value()), n, o, mint, at).Some?
      ensures ok ==> Value() == CancelSuspended(old(Value()), n, o, mint, at).value
    {
      hide Move, Offered;
      var i := issues[n];
      if !Offered(i, Action.Cancel) || Resolve(i.status, Action.Cancel, StageOf(i)).None? { return false; }
      var j := MoveIssue(i, Canceled);
      j := j.(cancellation := Some(Cancellation(OperatorResolution, i.status, false, at)), notPlanned := o.notPlanned);
      issues := issues[n := j];
      CancelPendingRequests(n);
      ok := SetPendingEffect(n, i.runId, None, mint, at);
      if ok { CloseResolved(n, Action.Cancel, at); }
    }

    method ResolveOperatorSuspension(n: nat, action: Action, o: Observation, mint: Id, at: int) returns (ok: bool)
      modifies this
      ensures ok == ResolveOperator(old(Value()), n, action, o, mint, at).Some?
      ensures ok ==> Value() == ResolveOperator(old(Value()), n, action, o, mint, at).value
    {
      hide Relaunch, AdoptMerged, CancelSuspended, ExtendPaths, CanAdoptHead, CanAdoptWorktree, CanApprovePaths;
      if at == 0 || n !in issues { return false; }
      var i := issues[n];
      if i.runId == 0 || i.suspension.None? || i.worker != 0 { return false; }
      if active.Some? && (!(action.Cancel? || action.AdoptPr?) || active.value.issue == n) { return false; }
      match action {
        case ApproveConflictPaths =>
          if !CanApprovePaths(i) { return false; }
          ApprovableHasEvidence(i);
          if o.headSha != i.headSha || o.worktreeSha != i.continuation.value.worktreeSha || o.paths == [] {
            return false;
          }
          if HasPending(Value(), n) || !o.pathsValid { return false; }
          var r := ExtendAllowedPaths(i.conflict.value, o.paths);
          issues := issues[n := i.(conflict := Some(r))];
          return true;
        case AdoptHead =>
          if !CanAdoptHead(i) || o.headSha == 0 || !OwnCheckpoint(i) { return false; }
          issues := issues[n := i.(continuation := Some(i.continuation.value.(headSha := o.headSha)), updatedAt := at)];
          return true;
        case AdoptWorktree =>
          if !CanAdoptWorktree(i) || o.worktreeSha == 0 || !OwnCheckpoint(i) { return false; }
          AdoptableHasEvidence(i);
          var c := i.continuation.value;
          if !(c.stage.ResumeStage? || c.stage.ConflictStage?) { return false; }
          c := c.(worktreeSha := o.worktreeSha, stage := ConflictStage);
          var r := ExtendAllowedPaths(i.conflict.value, o.paths);
          var p := i.suspension.value.(status := Open, recoverability := Operator, missing := []);
          p := p.(actions := [Action.Cancel, Action.RetryStage]);
          issues := issues[n := i.(continuation := Some(c), suspension := Some(p), conflict := Some(r),
              updatedAt := at)];
          return true;
        case Resume => ok := RelaunchIssue(n, action, o, mint, at);
        case RetryStage => ok := RelaunchIssue(n, action, o, mint, at);
        case AdoptPr => ok := AdoptMergedRequest(n, o, mint, at);
        case Cancel => ok := CancelSuspendedIssue(n, o, mint, at);
        case AdoptInput => return false;
      }
    }

    // ---------------------------------------------------------------- answers

    /** Looks a request up by identifier among the live and the quarantined ones; an ambiguous
        identifier is as good as none. */
    method FindRequest(id: Id) returns (place: Option<Place>)
      ensures place.Some? ==> Finds(Value(), id, place.value)
      ensures place.None? ==> forall p :: !Finds(Value(), id, p)
    {
      var found: set<Place> := {};
      var todo := requests.Keys;
      while todo != {}
        invariant todo <= requests.Keys
        invariant forall p :: p in found <==> p.Live? && At(Value(), p) && p.id !in todo && Get(Value(), p).id == id
      {
        var k :| k in todo;
        todo := todo - {k};
        if requests[k].id == id { found := found + {Live(k)}; }
      }
      var records := quarantined.Keys;
      while records != {}
        invariant records <= quarantined.Keys
        invariant forall p :: p in found <==>
                    At(Value(), p) && Get(Value(), p).id == id && (p.Held? ==> p.issue !in records)
      {
        var n :| n in records;
        var held := HeldUnder(n, id);
        records := records - {n};
        found := found + held;
      }
      if found == {} { return None; }
      var p :| p in found;
      if found == {p} { return Some(p); }
      ghost var q :| q in found && q != p;
      return None;
    }

    /** The requests of one record with this identifier. */
    method HeldUnder(n: nat, id: Id) returns (held: set<Place>)
      requires n in quarantined
      ensures forall p :: p in held <==> p.Held? && p.issue == n && At(Value(), p) && Get(Value(), p).id == id
    {
      held := {};
      var rs := quarantined[n].requests;
      for k := 0 to |rs|
        invariant forall p :: p in held <==>
                    p.Held? && p.issue == n && p.index < k && At(Value(), p) && Get(Value(), p).id == id
      {
        if rs[k].id == id { held := held + {Held(n, k)}; }
      }
    }

    /** The Issue's open questions, wherever they are kept. */
    method OpenQuestions(n: nat) returns (open: set<Place>)
      ensures forall p :: p in open <==> At(Value(), p) && Get(Value(), p).issue == n && Get(Value(), p).status.Pending?
    {
      open := set id | id in requests && requests[id].issue == n && requests[id].status.Pending? :: Live(id);
      var records := quarantined.Keys;
      while records != {}
        invariant records <= quarantined.Keys
        invariant forall p :: p in open <==>
                    At(Value(), p) && Get(Value(), p).issue == n && Get(Value(), p).status.Pending?
                        && (p.Held? ==> p.issue !in records)
      {
        var m :| m in records;
        records := records - {m};
        var rs := quarantined[m].requests;
        open := open + set k | 0 <= k < |rs| && rs[k].issue == n && rs[k].status.Pending? :: Held(m, k);
      }
    }

    /** The smallest identifier among some requests. */
    method LeastId(places: set<Place>) returns (least: Id)
      requires places != {} && forall p :: p in places ==> At(Value(), p)
      ensures exists p :: p in places && Get(Value(), p).id == least
      ensures forall p :: p in places ==> least <= Get(Value(), p).id
    {
      var p :| p in places;
      least := Get(Value(), p).id;
      var todo := places - {p};
      while todo != {}
        invariant todo <= places
        invariant exists q :: q in places && Get(Value(), q).id == least
        invariant forall q :: q in places && q !in todo ==> least <= Get(Value(), q).id
      {
        var q :| q in todo;
        todo := todo - {q};
        if Get(Value(), q).id < least { least := Get(Value(), q).id; }
      }
    }

    /** Asks about an Issue that has no run yet, unless its first open question is another one. */
    method AskQuestion(n: nat, id: Id, question: Id, at: int) returns (ok: bool)
      modifies this
      ensures ok == AskIntake(old(Value()), n, id, question, at).Some?
      ensures ok ==> Value() == AskIntake(old(Value()), n, id, question, at).value
    {
      if n in quarantined || (n in issues && (!issues[n].status.Unset? || issues[n].runId != 0)) { return false; }
      var open := OpenQuestions(n);
      if open != {} {
        var least := LeastId(open);
        FirstIsLeast(Value(), n, open, least);
        return forall p :: p in open && Get(Value(), p).id == least ==> Get(Value(), p).question == question;
      }
      ghost var was := Value();
      NothingToAsk(was, n, id, question, at);
      if n !in issues { issues := issues[n := NEW_ISSUE.(updatedAt := at)]; }
      requests := requests[id := NewRequest(n, id, question, at)];
      return true;
    }

    /** Records an answer for the request found under the identifier. */
    method RecordRequestAnswer(id: Id, answer: Id, provenance: Id, at: int) returns (ok: bool)
      modifies this
      ensures ok <==> exists p :: RecordAnswer(old(Value()), p, id, answer, provenance, at).Some?
      ensures ok ==> exists p :: RecordAnswer(old(Value()), p, id, answer, provenance, at) == Some(Value())
    {
      hide Finds, RecordAnswer;
      ghost var was := Value();
      RecordNeedsPlace(was, id, answer, provenance, at);
      var place := FindRequest(id);
      assert Value() == was;
      if place.None? {
        assert forall p :: !Finds(was, id, p);
        return false;
      }
      if id == 0 || at == 0 || answer == 0 { return false; }
      var p := place.value;
      FoundIsUnique(was, id, p);
      var r := Get(Value(), p);
      if !r.status.Pending? { return false; }
      r := r.(status := Answered, answer := answer, answeredAt := Some(at), provenance := provenance);
      match p {
        case Live(key) => requests := requests[key := r];
        case Held(n, k) =>
          var kept := quarantined[n].requests[k := r];
          quarantined := quarantined[n := quarantined[n].(requests := kept)];
      }
      assert Value() == Put(was, p, r);
      RecordAt(was, p, id, answer, provenance, at);
      return true;
    }

    /** Hands an answered request to its Issue. */
    method PrepareAnsweredRequest(id: Id, mint: Id, at: int) returns (ok: bool)
      modifies this
      ensures ok <==> exists p :: PrepareAnswered(old(Value()), p, id, mint, at).Some?
      ensures ok ==> exists p :: PrepareAnswered(old(Value()), p, id, mint, at) == Some(Value())
    {
      hide Finds, AnsweredTransition, Move, PrepareAnswered;
      ghost var was := Value();
      PrepareNeedsPlace(was, id, mint, at);
      var place := FindRequest(id);
      assert Value() == was;
      if place.None? {
        assert forall p :: !Finds(was, id, p);
        return false;
      }
      var p := place.value;
      FoundIsUnique(was, id, p);
      PrepareAt(was, p, id, mint, at);
      var r := Get(Value(), p);
      var to := AnsweredTransition(Value(), r);
      if to.None? { return false; }
      var n := r.issue;
      var i := MoveIssue(issues[n], to.value);
      i := i.(answers := issues[n].answers + [AnswerOf(r)], retryAfter := 0, updatedAt := at);
      issues := issues[n := i];
      if n in effects && effects[n].kind.MarkNeedsInput? { effects := effects - {n}; }
      ok := true;
      if to.value.ResolvingConflict? { ok := SetPendingEffect(n, i.runId, Some(RetryConflict), mint, at); }
      assert ok ==> PrepareAnswered(was, p, id, mint, at) == Some(Value());
      assert ok <==> PrepareAnswered(was, p, id, mint, at).Some?;
    }

    // ---------------------------------------------------------------- updates

    /** Records or hands over the answer of the request that is kept at this place. */
    method AnswerAt(p: Authority.Step) returns (ok: bool)
      requires p.Record? || p.Prepare?
      modifies this
      ensures ok == Authority.Do(old(Value()), p).Some?
      ensures ok ==> Value() == Authority.Do(old(Value()), p).value
    {
      hide Finds, RecordAnswer, PrepareAnswered, Authority.Do;
      ghost var was := Value();
      OnlyFoundPlace(was, p);
      var place := FindRequest(p.id);
      assert Value() == was && (place.Some? ==> Finds(was, p.id, place.value));
      if place != Some(p.p) { return false; }
      if p.Record? {
        ok := RecordRequestAnswer(p.id, p.answer, p.provenance, p.at);
      } else {
        ok := PrepareAnsweredRequest(p.id, p.mint, p.at);
      }
    }

    /** The steps that write one entry. */
    method WriteEntry(p: Authority.Step) returns (ok: bool)
      requires p.Open? || p.Edit? || p.Route?
      modifies this
      ensures ok == Authority.Do(old(Value()), p).Some?
      ensures ok ==> Value() == Authority.Do(old(Value()), p).value
    {
      match p
      case Open(id, r) =>
        if r.id != id || !r.status.Pending? || r.answer != 0 || r.answeredAt.Some? || r.provenance != 0 {
          return false;
        }
        requests := requests[id := r];
        return true;
      case Edit(n, i) =>
        if n !in issues || !Authority.EditAllowed(issues[n], i) { return false; }
        issues := issues[n := i];
        return true;
      case Route(id, q) =>
        if id !in requests || !Authority.RouteAllowed(requests[id], q) { return false; }
        requests := requests[id := q];
        return true;
    }

    /** Makes one step of an update. */
    method Perform(p: Authority.Step) returns (ok: bool)
      modifies this
      ensures ok == Authority.Do(old(Value()), p).Some?
      ensures ok ==> Value() == Authority.Do(old(Value()), p).value
    {
      hide ExecutionSlot.Start, ExecutionSlot.Release, ExecutionSlot.Capture, ResumeFrom, ExecutionSlot.Transfer,
           ApplyTo, RecoverUnstarted, ResolveOperator, RestoreInput, RestoreAnsweredChecks, CancelQuarantined,
           CancelNotPlanned, RecordAnswer, PrepareAnswered, AskIntake, CancelPending, SetEffect, ClearEffect, Finds;
      match p
      case Start(n, runId, base, at, order) => ok := StartExecution(n, runId, base, at, order);
      case Release(n, x) => ok := ReleaseExecution(n, x);
      case Capture(n, x, c, at) => ok := CaptureContinuation(n, x, c, at);
      case ResumeRun(n, c, at) => ok := ResumeContinuation(n, c, at);
      case Transfer(n, x, newRun, at) => ok := TransferExecution(n, x, newRun, at);
      case Apply(n, d, at) => ok := ApplyTransition(n, d, at);
      case RecoverLaunch(n, expected, at) => ok := RecoverUnstartedLaunch(n, expected, at);
      case ResolveIssue(n, action, o, mint, at) => ok := ResolveOperatorSuspension(n, action, o, mint, at);
      case RestoreQuestion(n, head, digest, at) => ok := RestoreQuestion(n, head, digest, at);
      case RestoreChecks(n, head, digest, mint, at) => ok := RestoreChecks(n, head, digest, mint, at);
      case CancelRecord(n, at) => ok := CancelQuarantinedIssue(n, at);
      case CancelClosed(n, status, x, at) => ok := CancelNotPlannedIssue(n, status, x, at);
      case Ask(n, id, question, at) => ok := AskQuestion(n, id, question, at);
      case Withdraw(n) => CancelPendingRequests(n); ok := true;
      case Effect(n, runId, kind, mint, at) => ok := SetPendingEffect(n, runId, kind, mint, at);
      case Clear(n, effectId) => ok := ClearPendingEffect(n, effectId);
      case Record(_, _, _, _, _) => ok := AnswerAt(p);
      case Prepare(_, _, _, _) => ok := AnswerAt(p);
      case _ => ok := WriteEntry(p);
    }

    /** The mutation of an update, step by step, stopping at the first step that fails. */
    method Mutate(steps: seq<Authority.Step>) returns (ok: bool)
      modifies this
      ensures ok == Authority.DoAll(old(Value()), steps).Some?
      ensures ok ==> Value() == Authority.DoAll(old(Value()), steps).value
    {
      hide Authority.Do;
      ghost var was := Value();
      var k := 0;
      while k < |steps|
        invariant k <= |steps|
        invariant Authority.DoAll(was, steps) == Authority.DoAll(Value(), steps[k..])
      {
        assert steps[k..][0] == steps[k] && steps[k..][1..] == steps[k + 1..];
        ok := Perform(steps[k]);
        if !ok { return; }
        k := k + 1;
      }
      return true;
    }

    /** One whole update of a valid snapshot, as the theorems about runs speak of it. */
    method RunUpdate(rest: Aggregate -> bool, u: Authority.Update) returns (ok: bool)
      requires Valid(rest, Value())
      modifies this
      ensures ok == Authority.Commit(rest, old(Value()), u).Some?
      ensures ok ==> Value() == Authority.Commit(rest, old(Value()), u).value
    {
      hide Authority.DoAll, Valid, Finalize, Authority.Settle;
      var was := Value();
      ok := Mutate(u.steps);
      if !ok { return; }
      CommittedIsolation.MutatedFiled(rest, was, u);
      ok := FinishUpdate(rest, was, u);
    }
  }

  lemma LaunchHasIssue(s: Aggregate, n: nat)
    requires UnstartedConflictLaunch(s, n)
    ensures n in s.issues
  {
  }

  /** Without an open question a new one is asked. */
  lemma NothingToAsk(s: Aggregate, n: nat, id: Id, question: Id, at: int)
    requires !(n in s.quarantined || (n in s.issues && (!s.issues[n].status.Unset? || s.issues[n].runId != 0)))
    requires forall p :: At(s, p) && Get(s, p).issue == n ==> !Get(s, p).status.Pending?
    ensures var t := if n in s.issues then s else WithIssue(s, n, NEW_ISSUE.(updatedAt := at));
            AskIntake(s, n, id, question, at) == Some(t.(requests := t.requests[id := NewRequest(n, id, question, at)]))
  {
    assert forall p :: !FirstPending(s, n, p);
  }

  /** The first open questions are those with the smallest identifier. */
  lemma FirstIsLeast(s: Aggregate, n: nat, open: set<Place>, least: Id)
    requires forall p :: p in open <==> At(s, p) && Get(s, p).issue == n && Get(s, p).status.Pending?
    requires exists p :: p in open && Get(s, p).id == least
    requires forall p :: p in open ==> least <= Get(s, p).id
    ensures forall p :: FirstPending(s, n, p) <==> p in open && Get(s, p).id == least
    ensures exists p :: FirstPending(s, n, p)
  {
    forall p ensures FirstPending(s, n, p) <==> p in open && Get(s, p).id == least {
      var q :| q in open && Get(s, q).id == least;
    }
    var p :| p in open && Get(s, p).id == least;
    assert FirstPending(s, n, p);
  }

  lemma FoundIsUnique(s: Aggregate, id: Id, p: Place)
    requires Finds(s, id, p)
    ensures At(s, p) && Get(s, p).id == id && forall q :: Finds(s, id, q) ==> q == p
  {
  }

  lemma RecordNeedsPlace(s: Aggregate, id: Id, answer: Id, provenance: Id, at: int)
    ensures forall p :: RecordAnswer(s, p, id, answer, provenance, at).Some? ==>
              id != 0 && at != 0 && answer != 0 && Finds(s, id, p) && At(s, p) && Get(s, p).status.Pending?
  {
  }

  lemma RecordAt(s: Aggregate, p: Place, id: Id, answer: Id, provenance: Id, at: int)
    requires Finds(s, id, p) && At(s, p) && Get(s, p).status.Pending? && id != 0 && at != 0 && answer != 0
    ensures RecordAnswer(s, p, id, answer, provenance, at)
            == Some(Put(s, p, Get(s, p).(status := Answered, answer := answer, answeredAt := Some(at),
                provenance := provenance)))
  {
  }

  /** An answering step succeeds only at the place its request is found. */
  lemma OnlyFoundPlace(s: Aggregate, p: Authority.Step)
    requires p.Record? || p.Prepare?
    ensures Authority.Do(s, p).Some? ==> Finds(s, p.id, p.p)
    ensures forall q :: Finds(s, p.id, p.p) && Finds(s, p.id, q) ==> q == p.p
    ensures p.Record? ==> Authority.Do(s, p) == RecordAnswer(s, p.p, p.id, p.answer, p.provenance, p.at)
    ensures p.Prepare? ==> Authority.Do(s, p) == PrepareAnswered(s, p.p, p.id, p.mint, p.at)
    ensures forall q :: p.Record? && RecordAnswer(s, q, p.id, p.answer, p.provenance, p.at).Some? ==> Finds(s, p.id, q)
    ensures forall q :: p.Prepare? && PrepareAnswered(s, q, p.id, p.mint, p.at).Some? ==> Finds(s, p.id, q)
  {
  }

  lemma PrepareNeedsPlace(s: Aggregate, id: Id, mint: Id, at: int)
    ensures forall p :: PrepareAnswered(s, p, id, mint, at).Some? ==> Finds(s, id, p)
  {
  }

  /** What preparing the request at its place does. */
  lemma PrepareAt(s: Aggregate, p: Place, id: Id, mint: Id, at: int)
    requires Finds(s, id, p)
    ensures At(s, p)
    ensures AnsweredTransition(s, Get(s, p)).None? ==> PrepareAnswered(s, p, id, mint, at).None?
    ensures AnsweredTransition(s, Get(s, p)).Some? ==>
              var r, to := Get(s, p), AnsweredTransition(s, Get(s, p)).value;
              && r.issue in s.issues && r.answeredAt.Some?
              && var i := Move(s.issues[r.issue], to).(
                            answers := s.issues[r.issue].answers + [AnswerOf(r)], retryAfter := 0, updatedAt := at);
              var t := WithIssue(s, r.issue, i);
              var u := if r.issue in t.effects && t.effects[r.issue].kind.MarkNeedsInput?
                  then t.(effects := t.effects - {r.issue}) else t;
              PrepareAnswered(s, p, id, mint, at)
              == if to.ResolvingConflict? then SetEffect(u, r.issue, i.runId, Some(RetryConflict), mint, at)
                  else Some(u)
  {
    hide Move, SetEffect, Finds;
    FoundIsUnique(s, id, p);
  }

  lemma ApprovableHasEvidence(i: Issue)
    requires CanApprovePaths(i)
    ensures i.continuation.Some? && i.conflict.Some?
  {
  }

  lemma AdoptableHasEvidence(i: Issue)
    requires CanAdoptWorktree(i)
    ensures i.continuation.Some? && i.conflict.Some?
  {
  }

  /** Sorting the collected requests gives the recorded list. */
  lemma SortedIsRecorded(s: Aggregate, n: nat, lastValid: Option<Issue>, at: int, collected: seq<Request>)
    requires WellKeyed(s, n) && NoRepeats(collected)
    requires forall r: Request :: r in collected <==> r.id in s.requests && s.requests[r.id] == r && r.issue == n
    ensures Sort(collected, RequestRank()) == Isolate(s, n, lastValid, at).quarantined[n].requests
  {
    var recorded := Isolate(s, n, lastValid, at).quarantined[n].requests;
    IsolationMovesRequests(s, n, lastValid, at);
    SortWithoutRepeats(collected, RequestRank());
    AscendingUnique(Sort(collected, RequestRank()), recorded, RequestRank());
  }
}
