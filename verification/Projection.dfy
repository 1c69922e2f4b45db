/**
 Projecting an Issue's status onto its GitHub labels and open/closed state.

 Labels are compared by key (their lower-case form).  The remote side may apply any part
 of a label edit before a pass is interrupted.
 */
module Projection {
  import opened Lifecycle

  type Label = string

  /** The key of a label: only the empty label has the empty key. */
  datatype Naming = Naming(key: Label -> string)
  {
    ghost predicate Sound() { forall l :: key(l) == "" <==> l == "" }
  }

  datatype Config = Config(
    ready: seq<Label>, running: Label, needsInput: Label, done: Label, failed: Label, exclude: seq<Label>,
    closeIssue: bool)

  datatype Reason = NoReason | CompletedReason | NotPlannedReason

  datatype Wanted = AnyState | Open | Closed(reason: Reason)

  datatype Projection = Projection(shown: Label, state: Wanted, managed: seq<Label>, human: bool, humanLabel: Label)

  datatype Remote = Remote(labels: seq<Label>, closed: bool, reason: Reason)

  const LEGACY_LABELS: seq<Label> := ["needs-human", "codex-loop:needs-input", "triage", "do-not-automate"]

  /** The excluded labels that mean blocked. */
  function BlockedLabels(n: Naming, exclude: seq<Label>): seq<Label> {
    if exclude == [] then []
    else (if n.key(exclude[0]) == "blocked" then [exclude[0]] else []) + BlockedLabels(n, exclude[1..])
  }

  /** The label and state a status stands for. */
  function Desired(n: Naming, c: Config, status: Status): Projection {
    var blocked := BlockedLabels(n, c.exclude);
    var managed := c.ready + [c.running, c.needsInput, c.done, c.failed] + LEGACY_LABELS + blocked;
    var p := Projection("", Open, managed, status.NeedsInput?, c.needsInput);
    match status
    case Unset => p.(state := AnyState, managed := [c.needsInput, "codex-loop:needs-input"])
    case NeedsInput => p
    case Blocked => p.(shown := if blocked == [] then c.failed else blocked[|blocked| - 1])
    case Failed => p.(shown := c.failed)
    case Completed => p.(shown := c.done, state := if c.closeIssue then Closed(CompletedReason) else Open)
    case Canceled => p.(state := Closed(NotPlannedReason))
    case _ => p.(shown := c.running)
  }

  /** What a pass projects when the operator is, or is not, being asked. */
  function Projected(n: Naming, c: Config, status: Status, human: bool): Projection {
    var p := Desired(n, c, status);
    p.(human := human,
       managed := if status.Unset? && human then p.managed + c.ready else p.managed,
       shown := if human && p.shown == c.running then "" else p.shown)
  }

  function Keys(n: Naming, labels: seq<Label>): set<string> {
    set l | l in labels :: n.key(l)
  }

  function Additions(n: Naming, p: Projection, present: set<string>): seq<Label> {
    (if p.human && n.key(p.humanLabel) !in present then [p.humanLabel] else []) +
    (if p.shown != "" && n.key(p.shown) !in present then [p.shown] else [])
  }

  /** A managed label that this projection does not want. */
  predicate Unwanted(n: Naming, p: Projection, l: Label) {
    l != "" && !(p.human && n.key(l) == n.key(p.humanLabel)) && n.key(l) != n.key(p.shown)
  }

  function Removals(
      n: Naming, p: Projection, managed: seq<Label>, present: set<string>, seen: set<string>): seq<Label> {
    if managed == [] then []
    else
      var l := managed[0];
      if Unwanted(n, p, l) && n.key(l) in present && n.key(l) !in seen
      then [l] + Removals(n, p, managed[1..], present, seen + {n.key(l)})
      else Removals(n, p, managed[1..], present, seen)
  }

  predicate StateMatches(p: Projection, closed: bool, reason: Reason) {
    match p.state
    case AnyState => true
    case Open => !closed
    case Closed(r) => closed && (r.NoReason? || reason == r)
  }

  /** No label to add or remove, and the right state. */
  predicate Converged(n: Naming, p: Projection, r: Remote) {
    Additions(n, p, Keys(n, r.labels)) == [] && Removals(n, p, p.managed, Keys(n, r.labels), {}) == []
    && StateMatches(p, r.closed, r.reason)
  }

  // ---------------------------------------------------------------- one pass, possibly interrupted

  function WithoutKey(n: Naming, labels: seq<Label>, key: string): seq<Label> {
    if labels == [] then []
    else (if n.key(labels[0]) == key then [] else [labels[0]]) + WithoutKey(n, labels[1..], key)
  }

  /** How far a pass gets: which single label edits land, and whether the state is patched. */
  datatype Reach = Reach(adds: Label -> bool, removes: Label -> bool, patches: bool)

  function AddAll(labels: seq<Label>, add: seq<Label>, lands: Label -> bool): seq<Label>
    decreases |add|
  {
    if add == [] then labels
    else AddAll(if add[0] != "" && lands(add[0]) then labels + [add[0]] else labels, add[1..], lands)
  }

  function RemoveAll(n: Naming, labels: seq<Label>, remove: seq<Label>, lands: Label -> bool): seq<Label>
    decreases |remove|
  {
    if remove == [] then labels
    else RemoveAll(n, if remove[0] != "" && lands(remove[0]) then WithoutKey(n, labels, n.key(remove[0]))
        else labels, remove[1..], lands)
  }

  /** The remote Issue after a pass that gets this far. */
  function Pass(n: Naming, p: Projection, r: Remote, reach: Reach): Remote {
    var present := Keys(n, r.labels);
    var add, remove := Additions(n, p, present), Removals(n, p, p.managed, present, {});
    var labels := RemoveAll(n, AddAll(r.labels, add, reach.adds), remove, reach.removes);
    if reach.patches && !StateMatches(p, r.closed, r.reason)
    then Remote(labels, p.state.Closed?, if p.state.Closed? then p.state.reason else NoReason)
    else Remote(labels, r.closed, r.reason)
  }

  function Full(): Reach { Reach(_ => true, _ => true, true) }

  function Passes(n: Naming, p: Projection, r: Remote, reaches: seq<Reach>): Remote
    decreases |reaches|
  {
    if reaches == [] then r else Passes(n, p, Pass(n, p, r, reaches[0]), reaches[1..])
  }

  // ---------------------------------------------------------------- what a pass does to the keys

  lemma KeysConcat(n: Naming, a: seq<Label>, b: seq<Label>)
    ensures Keys(n, a + b) == Keys(n, a) + Keys(n, b)
  {
  }

  lemma {:induction false} WithoutKeyKeys(n: Naming, labels: seq<Label>, key: string)
    ensures Keys(n, WithoutKey(n, labels, key)) == Keys(n, labels) - {key}
  {
    if labels != [] {
      WithoutKeyKeys(n, labels[1..], key);
      assert labels == [labels[0]] + labels[1..];
      KeysConcat(n, [labels[0]], labels[1..]);
      KeysConcat(n, if n.key(labels[0]) == key then [] else [labels[0]], WithoutKey(n, labels[1..], key));
    }
  }

  function Landing(n: Naming, labels: seq<Label>, lands: Label -> bool): set<string> {
    set l | l in labels && l != "" && lands(l) :: n.key(l)
  }

  lemma LandingStep(n: Naming, labels: seq<Label>, lands: Label -> bool)
    requires labels != []
    ensures Landing(n, labels, lands) ==
            (if labels[0] != "" && lands(labels[0]) then {n.key(labels[0])} else {}) + Landing(n, labels[1..], lands)
  {
    assert labels == [labels[0]] + labels[1..];
  }

  lemma {:induction false} AddAllKeys(n: Naming, labels: seq<Label>, add: seq<Label>, lands: Label -> bool)
    ensures Keys(n, AddAll(labels, add, lands)) == Keys(n, labels) + Landing(n, add, lands)
    decreases |add|
  {
    if add != [] {
      var first := if add[0] != "" && lands(add[0]) then labels + [add[0]] else labels;
      LandingStep(n, add, lands);
      KeysConcat(n, labels, [add[0]]);
      AddAllKeys(n, first, add[1..], lands);
      assert Keys(n, [add[0]]) == {n.key(add[0])};
    }
  }

  lemma {:induction false} RemoveAllKeys(n: Naming, labels: seq<Label>, remove: seq<Label>, lands: Label -> bool)
    ensures Keys(n, RemoveAll(n, labels, remove, lands)) == Keys(n, labels) - Landing(n, remove, lands)
    decreases |remove|
  {
    if remove != [] {
      LandingStep(n, remove, lands);
      WithoutKeyKeys(n, labels, n.key(remove[0]));
      RemoveAllKeys(n, if remove[0] != "" && lands(remove[0]) then WithoutKey(n, labels, n.key(remove[0]))
          else labels, remove[1..], lands);
    }
  }

  /** Exactly the present keys of unwanted managed labels are removed, each once. */
  lemma {:induction false} RemovalsAre(
      n: Naming, p: Projection, managed: seq<Label>, present: set<string>, seen: set<string>)
    ensures forall l :: l in Removals(n, p, managed, present, seen) ==>
              l in managed && Unwanted(n, p, l) && n.key(l) in present && n.key(l) !in seen
    ensures forall l :: l in managed && Unwanted(n, p, l) && n.key(l) in present && n.key(l) !in seen ==>
              n.key(l) in Keys(n, Removals(n, p, managed, present, seen))
    ensures (forall l :: l in managed && Unwanted(n, p, l) ==> n.key(l) !in present)
            ==> Removals(n, p, managed, present, seen) == []
    decreases |managed|
  {
    if managed != [] {
      var l := managed[0];
      var more := if Unwanted(n, p, l) && n.key(l) in present && n.key(l) !in seen then seen + {n.key(l)} else seen;
      RemovalsAre(n, p, managed[1..], present, more);
      assert managed == [l] + managed[1..];
      KeysConcat(n, [l], Removals(n, p, managed[1..], present, more));
      assert Keys(n, [l]) == {n.key(l)};
    }
  }

  /** The keys of the managed labels that this projection does not want. */
  function UnwantedKeys(n: Naming, p: Projection): set<string> {
    set l | l in p.managed && Unwanted(n, p, l) :: n.key(l)
  }

  function WantedKeys(n: Naming, p: Projection): set<string> {
    (if p.human && p.humanLabel != "" then {n.key(p.humanLabel)} else {})
        + (if p.shown != "" then {n.key(p.shown)} else {})
  }

  lemma RemovalKeys(n: Naming, p: Projection, present: set<string>)
    requires n.Sound()
    ensures Keys(n, Removals(n, p, p.managed, present, {})) == UnwantedKeys(n, p) * present
    ensures Landing(n, Removals(n, p, p.managed, present, {}), _ => true) == UnwantedKeys(n, p) * present
    ensures UnwantedKeys(n, p) !! WantedKeys(n, p)
  {
    var rs := Removals(n, p, p.managed, present, {});
    RemovalsAre(n, p, p.managed, present, {});
    forall k | k in UnwantedKeys(n, p) * present ensures k in Keys(n, rs) {
      var l :| l in p.managed && Unwanted(n, p, l) && n.key(l) == k;
    }
    assert forall l :: l in rs ==> l != "";
    assert Landing(n, rs, _ => true) == Keys(n, rs);
  }

  lemma AdditionKeys(n: Naming, p: Projection, present: set<string>)
    ensures Landing(n, Additions(n, p, present), _ => true) == WantedKeys(n, p) - present
  {
    var xs := Additions(n, p, present);
    assert forall l :: l in xs <==> (p.human && n.key(p.humanLabel) !in present && l == p.humanLabel)
                                    || (p.shown != "" && n.key(p.shown) !in present && l == p.shown);
  }

  /** A full pass makes the managed keys exactly the wanted ones and leaves all others alone. */
  lemma FullPassKeys(n: Naming, p: Projection, r: Remote)
    requires n.Sound()
    ensures Keys(n, Pass(n, p, r, Full()).labels) == (Keys(n, r.labels) - UnwantedKeys(n, p)) + WantedKeys(n, p)
  {
    var present := Keys(n, r.labels);
    var add, remove := Additions(n, p, present), Removals(n, p, p.managed, present, {});
    AddAllKeys(n, r.labels, add, _ => true);
    RemoveAllKeys(n, AddAll(r.labels, add, _ => true), remove, _ => true);
    AdditionKeys(n, p, present);
    RemovalKeys(n, p, present);
    var f: Label -> bool := _ => true;
    assert Full().adds == f && Full().removes == f;
  }

  // ---------------------------------------------------------------- convergence

  /** The operator is asked for through a label that does not exist. */
  predicate AsksNobody(p: Projection) { p.human && p.humanLabel == "" }

  lemma PatchedStateMatches(n: Naming, p: Projection, r: Remote)
    ensures var t := Pass(n, p, r, Full()); StateMatches(p, t.closed, t.reason)
  {
  }

  lemma LabelsConverge(n: Naming, p: Projection, labels: seq<Label>)
    requires n.Sound() && !AsksNobody(p)
    requires WantedKeys(n, p) <= Keys(n, labels) && UnwantedKeys(n, p) !! Keys(n, labels)
    ensures Additions(n, p, Keys(n, labels)) == [] && Removals(n, p, p.managed, Keys(n, labels), {}) == []
  {
    assert forall l :: l in p.managed && Unwanted(n, p, l) ==> n.key(l) in UnwantedKeys(n, p);
    RemovalsAre(n, p, p.managed, Keys(n, labels), {});
  }

  /** Without a label to ask with, a pass that should ask never converges. */
  lemma NobodyNeverConverges(n: Naming, p: Projection, r: Remote)
    requires n.Sound() && AsksNobody(p) && "" !in r.labels
    ensures !Converged(n, p, r)
  {
    assert n.key("") == "";
    assert forall l :: l in r.labels ==> n.key(l) != "";
  }

  lemma {:induction false} NeverEmptyLabel(n: Naming, labels: seq<Label>, remove: seq<Label>, lands: Label -> bool)
    requires "" !in labels
    ensures "" !in RemoveAll(n, labels, remove, lands)
    decreases |remove|
  {
    if remove != [] {
      WithoutKeySubset(n, labels, n.key(remove[0]));
      NeverEmptyLabel(n, if remove[0] != "" && lands(remove[0]) then WithoutKey(n, labels, n.key(remove[0]))
          else labels, remove[1..], lands);
    }
  }

  lemma {:induction false} WithoutKeySubset(n: Naming, labels: seq<Label>, key: string)
    ensures forall l :: l in WithoutKey(n, labels, key) ==> l in labels
  {
    if labels != [] {
      WithoutKeySubset(n, labels[1..], key);
    }
  }

  lemma {:induction false} AddsNoEmptyLabel(labels: seq<Label>, add: seq<Label>, lands: Label -> bool)
    requires "" !in labels
    ensures "" !in AddAll(labels, add, lands)
    decreases |add|
  {
    if add != [] {
      AddsNoEmptyLabel(if add[0] != "" && lands(add[0]) then labels + [add[0]] else labels, add[1..], lands);
    }
  }

  lemma PassesNoEmptyLabel(n: Naming, p: Projection, r: Remote, reach: Reach)
    requires "" !in r.labels
    ensures "" !in Pass(n, p, r, reach).labels
  {
    var present := Keys(n, r.labels);
    AddsNoEmptyLabel(r.labels, Additions(n, p, present), reach.adds);
    NeverEmptyLabel(n, AddAll(r.labels, Additions(n, p, present), reach.adds),
        Removals(n, p, p.managed, present, {}), reach.removes);
  }

  /** One full pass converges from any labels and state, exactly when there is a label to ask with
      or nobody to ask. */
  lemma FullPassConverges(n: Naming, p: Projection, r: Remote)
    requires n.Sound() && "" !in r.labels
    ensures Converged(n, p, Pass(n, p, r, Full())) <==> !AsksNobody(p)
  {
    var t := Pass(n, p, r, Full());
    PatchedStateMatches(n, p, r);
    if AsksNobody(p) {
      PassesNoEmptyLabel(n, p, r, Full());
      NobodyNeverConverges(n, p, t);
    } else {
      FullPassKeys(n, p, r);
      RemovalKeys(n, p, Keys(n, r.labels));
      LabelsConverge(n, p, t.labels);
    }
  }

  /** Interrupted passes, each stopping anywhere in its label edit or before its state change, do not
      prevent the next full pass from converging. */
  lemma {:induction false} InterruptedPassesConverge(n: Naming, p: Projection, r: Remote, reaches: seq<Reach>)
    requires n.Sound() && "" !in r.labels && !AsksNobody(p)
    ensures Converged(n, p, Pass(n, p, Passes(n, p, r, reaches), Full()))
    decreases |reaches|
  {
    if reaches == [] {
      FullPassConverges(n, p, r);
    } else {
      PassesNoEmptyLabel(n, p, r, reaches[0]);
      InterruptedPassesConverge(n, p, Pass(n, p, r, reaches[0]), reaches[1..]);
    }
  }

  /** No pass, interrupted or not, touches a label that is neither managed nor wanted. */
  lemma UnrelatedLabelsStay(n: Naming, p: Projection, r: Remote, reach: Reach, key: string)
    requires n.Sound() && key !in UnwantedKeys(n, p) && key !in WantedKeys(n, p)
    ensures key in Keys(n, Pass(n, p, r, reach).labels) <==> key in Keys(n, r.labels)
  {
    var present := Keys(n, r.labels);
    var add, remove := Additions(n, p, present), Removals(n, p, p.managed, present, {});
    AddAllKeys(n, r.labels, add, reach.adds);
    RemoveAllKeys(n, AddAll(r.labels, add, reach.adds), remove, reach.removes);
    RemovalsAre(n, p, p.managed, present, {});
    assert forall l :: l in add && l != "" ==> n.key(l) in WantedKeys(n, p);
    assert forall l :: l in remove ==> n.key(l) in UnwantedKeys(n, p);
  }

  /** A converged Issue is left alone by any pass. */
  lemma ConvergedIsFixed(n: Naming, p: Projection, r: Remote, reach: Reach)
    requires Converged(n, p, r)
    ensures Pass(n, p, r, reach) == r
  {
  }

  // ---------------------------------------------------------------- what a converged Issue tells

  /** What a reader of the remote Issue is told about it. */
  datatype Face = Unmanaged | Working | Asking | Stuck(key: string) | Finished | Dropped

  function FaceOf(n: Naming, c: Config, status: Status): Face {
    match status
    case Unset => Unmanaged
    case NeedsInput => Asking
    case Blocked => Stuck(n.key(Desired(n, c, status).shown))
    case Failed => Stuck(n.key(c.failed))
    case Completed => Finished
    case Canceled => Dropped
    case _ => Working
  }

  /** The configured labels differ where statuses differ. */
  predicate Telling(n: Naming, c: Config) {
    var running, asking, done := n.key(c.running), n.key(c.needsInput), n.key(c.done);
    && running != asking && asking != done && done != running
    && {running, asking, done} !! {"", n.key(c.failed), "blocked"} && n.key(c.failed) != ""
  }

  lemma ConvergedLabels(n: Naming, p: Projection, r: Remote)
    requires Converged(n, p, r)
    ensures p.human ==> n.key(p.humanLabel) in Keys(n, r.labels)
    ensures p.shown != "" ==> n.key(p.shown) in Keys(n, r.labels)
    ensures forall l :: l in p.managed && Unwanted(n, p, l) ==> n.key(l) !in Keys(n, r.labels)
  {
    RemovalsAre(n, p, p.managed, Keys(n, r.labels), {});
  }

  lemma DesiredManages(n: Naming, c: Config, status: Status)
    requires !status.Unset?
    ensures var p := Desired(n, c, status);
            && c.running in p.managed && c.needsInput in p.managed && c.done in p.managed && c.failed in p.managed
            && (forall l :: l in BlockedLabels(n, c.exclude) ==> l in p.managed)
            && p.humanLabel == c.needsInput && (p.human <==> status.NeedsInput?)
  {
  }

  lemma {:induction false} BlockedAreKeyed(n: Naming, exclude: seq<Label>)
    ensures forall l :: l in BlockedLabels(n, exclude) ==> n.key(l) == "blocked"
  {
    if exclude != [] { BlockedAreKeyed(n, exclude[1..]); }
  }

  /** What one status shows, another status with another face takes away. */
  lemma ShownIsRemoved(n: Naming, c: Config, a: Status, b: Status, r: Remote)
    requires n.Sound() && Telling(n, c) && !a.Unset? && !b.Unset? && FaceOf(n, c, a) != FaceOf(n, c, b)
    requires Converged(n, Desired(n, c, a), r) && Converged(n, Desired(n, c, b), r)
    ensures Desired(n, c, a).shown == ""
  {
    hide Converged, BlockedLabels;
    var p, q := Desired(n, c, a), Desired(n, c, b);
    ConvergedLabels(n, p, r);
    ConvergedLabels(n, q, r);
    DesiredManages(n, c, b);
    BlockedAreKeyed(n, c.exclude);
  }

  /** A converged Issue tells its status: two managed statuses that one remote Issue agrees with have the
      same face. */
  lemma ConvergedTellsStatus(n: Naming, c: Config, a: Status, b: Status, r: Remote)
    requires n.Sound() && Telling(n, c) && !a.Unset? && !b.Unset?
    requires Converged(n, Desired(n, c, a), r) && Converged(n, Desired(n, c, b), r)
    ensures FaceOf(n, c, a) == FaceOf(n, c, b)
  {
    hide BlockedLabels;
    if FaceOf(n, c, a) != FaceOf(n, c, b) {
      ShownIsRemoved(n, c, a, b, r);
      ShownIsRemoved(n, c, b, a, r);
      BlockedAreKeyed(n, c.exclude);
    }
  }

  /** The label that shows a status, when it has one and nobody is asked. */
  function ShownFor(n: Naming, c: Config, status: Status): Label {
    match status
    case Unset => ""
    case NeedsInput => ""
    case Canceled => ""
    case Blocked => Desired(n, c, status).shown
    case Failed => c.failed
    case Completed => c.done
    case _ => c.running
  }

  /** A blocked Issue shows the last of the excluded labels that mean blocked, or the failed label. */
  lemma BlockedShown(n: Naming, c: Config)
    ensures var shown := Desired(n, c, Blocked).shown;
            || (shown == c.failed && forall l :: l in c.exclude ==> n.key(l) != "blocked")
            || exists k :: 0 <= k < |c.exclude| && c.exclude[k] == shown && n.key(shown) == "blocked"
                           && forall m :: k < m < |c.exclude| ==> n.key(c.exclude[m]) != "blocked"
  {
    BlockedAreExcluded(n, c.exclude);
    if BlockedLabels(n, c.exclude) != [] { LastBlocked(n, c.exclude); }
  }

  lemma {:induction false} LastBlocked(n: Naming, exclude: seq<Label>)
    requires BlockedLabels(n, exclude) != []
    ensures var blocked := BlockedLabels(n, exclude);
            exists k :: 0 <= k < |exclude| && exclude[k] == blocked[|blocked| - 1] && n.key(exclude[k]) == "blocked"
                        && forall m :: k < m < |exclude| ==> n.key(exclude[m]) != "blocked"
    decreases |exclude|
  {
    var blocked, rest := BlockedLabels(n, exclude), BlockedLabels(n, exclude[1..]);
    if rest != [] {
      LastBlocked(n, exclude[1..]);
      var k :| 0 <= k < |exclude[1..]| && exclude[1..][k] == rest[|rest| - 1] && n.key(exclude[1..][k]) == "blocked"
               && forall m :: k < m < |exclude[1..]| ==> n.key(exclude[1..][m]) != "blocked";
      assert exclude[k + 1] == blocked[|blocked| - 1];
      assert forall m :: k + 1 < m < |exclude| ==> exclude[m] == exclude[1..][m - 1];
    } else {
      BlockedAreExcluded(n, exclude[1..]);
      assert forall m :: 0 < m < |exclude| ==> exclude[m] == exclude[1..][m - 1];
      assert exclude[0] == blocked[|blocked| - 1];
    }
  }

  lemma {:induction false} BlockedAreExcluded(n: Naming, exclude: seq<Label>)
    ensures forall l :: l in BlockedLabels(n, exclude) <==> l in exclude && n.key(l) == "blocked"
  {
    if exclude != [] {
      BlockedAreExcluded(n, exclude[1..]);
      assert forall l :: l in exclude <==> l == exclude[0] || l in exclude[1..];
    }
  }

  /** A converged Issue is closed as not planned when canceled, closed as completed when completed and so
      configured, and otherwise open, unless it is unmanaged. */
  lemma ConvergedState(n: Naming, c: Config, status: Status, human: bool, r: Remote)
    requires Converged(n, Projected(n, c, status, human), r)
    ensures status.Canceled? ==> r.closed && r.reason.NotPlannedReason?
    ensures status.Completed? && c.closeIssue ==> r.closed && r.reason.CompletedReason?
    ensures !status.Canceled? && !(status.Completed? && c.closeIssue) && !status.Unset? ==> !r.closed
  {
    hide BlockedLabels, Keys, Additions, Removals;
  }

  /** The labels that the projection of a status takes away unless it wants them. */
  predicate Cleared(c: Config, status: Status, human: bool, l: Label) {
    if status.Unset? then l == c.needsInput || (human && l in c.ready)
    else
      l in {c.running, c.needsInput, c.done, c.failed} || l in c.ready
      || l in {"needs-human", "codex-loop:needs-input", "triage", "do-not-automate"}
  }

  lemma ClearedIsManaged(n: Naming, c: Config, status: Status, human: bool, l: Label)
    requires Cleared(c, status, human, l)
    ensures l in Projected(n, c, status, human).managed
  {
    hide BlockedLabels;
  }

  lemma ProjectedShows(n: Naming, c: Config, status: Status, human: bool)
    ensures var p, own := Projected(n, c, status, human), ShownFor(n, c, status);
            && p.shown == (if human && own == c.running then "" else own)
            && p.human == human && p.humanLabel == c.needsInput
  {
    hide BlockedLabels;
  }

  /** A converged Issue has the label of its status, or, while the operator is asked, the human label and not the
      running one; and no other label that the projection takes away, neither configured nor inherited nor of a
      ready Issue. */
  lemma ConvergedReads(n: Naming, c: Config, status: Status, human: bool, r: Remote)
    requires n.Sound() && Converged(n, Projected(n, c, status, human), r)
    ensures human ==> n.key(c.needsInput) in Keys(n, r.labels)
    ensures var own := ShownFor(n, c, status);
            var shown := if human && own == c.running then "" else own;
            && (shown != "" ==> n.key(shown) in Keys(n, r.labels))
            && forall l :: Cleared(c, status, human, l) ==>
                 var kept := l == "" || n.key(l) == n.key(shown) || (human && n.key(l) == n.key(c.needsInput));
                 !kept ==> n.key(l) !in Keys(n, r.labels)
  {
    hide Keys, Converged, Projected, ShownFor, Cleared;
    var p := Projected(n, c, status, human);
    ConvergedLabels(n, p, r);
    ProjectedShows(n, c, status, human);
    forall l | Cleared(c, status, human, l) ensures l in p.managed {
      ClearedIsManaged(n, c, status, human, l);
    }
  }

  // ---------------------------------------------------------------- the client

  class Client {
    const n: Naming
    var labels: seq<Label>
    var closed: bool
    var reason: Reason

    function View(): Remote
      reads this
    {
      Remote(labels, closed, reason)
    }

    constructor (n: Naming, r: Remote)
      ensures this.n == n && View() == r
    {
      this.n, labels, closed, reason := n, r.labels, r.closed, r.reason;
    }

    /** The excluded labels that mean blocked; the last one is shown, the failed label if there is none. */
    method BlockedNames(failed: Label, exclude: seq<Label>) returns (names: seq<Label>, shown: Label)
      ensures names == BlockedLabels(n, exclude)
      ensures shown == if names == [] then failed else names[|names| - 1]
    {
      names, shown := [], failed;
      for k := 0 to |exclude|
        invariant BlockedLabels(n, exclude) == names + BlockedLabels(n, exclude[k..])
        invariant shown == if names == [] then failed else names[|names| - 1]
      {
        assert exclude[k..][0] == exclude[k] && exclude[k..][1..] == exclude[k + 1..];
        if n.key(exclude[k]) == "blocked" { names, shown := names + [exclude[k]], exclude[k]; }
      }
    }

    method DesiredProjection(c: Config, status: Status) returns (p: Projection)
      ensures p == Desired(n, c, status)
    {
      hide BlockedLabels;
      var blocked, shown := BlockedNames(c.failed, c.exclude);
      var managed := c.ready + [c.running, c.needsInput, c.done, c.failed] + LEGACY_LABELS + blocked;
      p := Projection("", Open, managed, status.NeedsInput?, c.needsInput);
      match status {
        case Unset => p := p.(state := AnyState, managed := [c.needsInput, "codex-loop:needs-input"]);
        case NeedsInput =>
        case Blocked => p := p.(shown := shown);
        case Failed => p := p.(shown := c.failed);
        case Completed => p := p.(shown := c.done, state := if c.closeIssue then Closed(CompletedReason) else Open);
        case Canceled => p := p.(state := Closed(NotPlannedReason));
        case _ => p := p.(shown := c.running);
      }
    }

    method LabelChanges(p: Projection) returns (add: seq<Label>, remove: seq<Label>)
      ensures add == Additions(n, p, Keys(n, labels))
      ensures remove == Removals(n, p, p.managed, Keys(n, labels), {})
    {
      var present: set<string> := {};
      for k := 0 to |labels|
        invariant present == Keys(n, labels[..k])
      {
        assert labels[..k + 1] == labels[..k] + [labels[k]];
        KeysConcat(n, labels[..k], [labels[k]]);
        assert Keys(n, [labels[k]]) == {n.key(labels[k])};
        present := present + {n.key(labels[k])};
      }
      assert labels[..|labels|] == labels;
      add := [];
      if p.human && n.key(p.humanLabel) !in present { add := add + [p.humanLabel]; }
      if p.shown != "" && n.key(p.shown) !in present { add := add + [p.shown]; }
      var seen: set<string> := {};
      remove := [];
      for k := 0 to |p.managed|
        invariant remove + Removals(n, p, p.managed[k..], present, seen) == Removals(n, p, p.managed, present, {})
      {
        var l := p.managed[k];
        assert p.managed[k..][0] == l && p.managed[k..][1..] == p.managed[k + 1..];
        if Unwanted(n, p, l) && n.key(l) in present && n.key(l) !in seen {
          remove := remove + [l];
          seen := seen + {n.key(l)};
        }
      }
    }

    /** The label edit: each single change may or may not land; empty labels are never sent. */
    method EditLabels(add: seq<Label>, remove: seq<Label>, reach: Reach)
      modifies this`labels
      ensures labels == RemoveAll(n, AddAll(old(labels), add, reach.adds), remove, reach.removes)
    {
      for k := 0 to |add|
        invariant AddAll(labels, add[k..], reach.adds) == AddAll(old(labels), add, reach.adds)
      {
        assert add[k..][0] == add[k] && add[k..][1..] == add[k + 1..];
        if add[k] != "" && reach.adds(add[k]) { labels := labels + [add[k]]; }
      }
      ghost var added := labels;
      for k := 0 to |remove|
        invariant RemoveAll(n, labels, remove[k..], reach.removes) == RemoveAll(n, added, remove, reach.removes)
      {
        assert remove[k..][0] == remove[k] && remove[k..][1..] == remove[k + 1..];
        if remove[k] != "" && reach.removes(remove[k]) { labels := WithoutKey(n, labels, n.key(remove[k])); }
      }
    }

    /** Reads, edits labels, patches the state, and reads back: success means convergence. */
    method Reconcile(p: Projection, reach: Reach) returns (ok: bool)
      modifies this
      ensures View() == Pass(n, p, old(View()), reach) && (ok ==> Converged(n, p, View()))
      ensures reach == Full() && Converged(n, p, View()) ==> ok
    {
      hide Additions, Removals, AddAll, RemoveAll, Keys;
      var add, remove := LabelChanges(p);
      var matches := StateMatches(p, closed, reason);
      EmptyEdit(n, labels, reach);
      if add == [] && remove == [] && matches { return true; }
      EditLabels(add, remove, reach);
      if !matches && reach.patches {
        closed, reason := p.state.Closed?, if p.state.Closed? then p.state.reason else NoReason;
      }
      var again, stale := LabelChanges(p);
      return again == [] && stale == [] && StateMatches(p, closed, reason);
    }

    method ReconcileIssue(c: Config, status: Status, human: bool, reach: Reach) returns (ok: bool)
      modifies this
      ensures var p := Projected(n, c, status, human);
              View() == Pass(n, p, old(View()), reach) && (ok ==> Converged(n, p, View()))
      ensures n.Sound() && "" !in old(labels) && reach == Full()
              ==> (ok <==> !AsksNobody(Projected(n, c, status, human)))
    {
      hide Pass, Converged, Desired;
      var p := DesiredProjection(c, status);
      if status.Unset? && human { p := p.(managed := p.managed + c.ready); }
      p := p.(human := human);
      if human && p.shown == c.running { p := p.(shown := ""); }
      if n.Sound() && "" !in labels { FullPassConverges(n, p, View()); }
      ok := Reconcile(p, reach);
    }
  }

  lemma EmptyEdit(n: Naming, labels: seq<Label>, reach: Reach)
    ensures RemoveAll(n, AddAll(labels, [], reach.adds), [], reach.removes) == labels
  {
  }
}
