/** The Issue lifecycle: statuses, the decisions that move between them, and resolution actions. */
module Lifecycle {
  import opened Wrappers

  datatype Status =
    | Unset | Claiming | Claimed | Launching | Running | ResumePending | RetryWait | NeedsInput
    | AwaitingChecks | AwaitingMerge | ResolvingConflict | Blocked | Failed | Completed | Canceled
  {
    predicate Terminal() { Completed? || Failed? || Blocked? || Canceled? }
    predicate RequiresActiveExecution() { Claiming? || Claimed? || Launching? || Running? }
    /** Terminal, but an operator can still resolve it. */
    predicate Suspended() { Blocked? || Failed? }
  }

  datatype Stage = NoStage | ResumeStage | PublishStage | ChecksStage | ConflictStage

  function StageForStatus(s: Status): Stage {
    match s
    case AwaitingChecks => ChecksStage
    case AwaitingMerge => ChecksStage
    case ResolvingConflict => ConflictStage
    case _ => ResumeStage
  }

  datatype Action =
    AdoptHead | AdoptInput | AdoptPr | AdoptWorktree | ApproveConflictPaths | Cancel | Resume | RetryStage
  {
    /** The position of the action's name in lexicographic order. */
    function Rank(): nat {
      match this
      case AdoptHead => 0
      case AdoptInput => 1
      case AdoptPr => 2
      case AdoptWorktree => 3
      case ApproveConflictPaths => 4
      case Cancel => 5
      case Resume => 6
      case RetryStage => 7
    }
  }

  /** One constructor for each lifecycle decision. */
  datatype Decision =
    | ScheduleRetry | Complete | RequestInput | AwaitChecks | AwaitMerge | ResolveConflict
    | StartClaim | ResumeAfterAnswer(target: Status) | ConfirmClaim | StartClaimedWorker
    | StartAnsweredResume | StartRetry | ConfirmWorkerStarted | AbortWorkerLaunch(target: Status)
    | RecoverUnstartedWorker(target: Status) | InterruptExecution | RejectAnsweredResume
    | RejectWorkerWorkspace | ExhaustPullRequestChecks | BlockPullRequestLifecycle | Fail(blocked: bool)
    | SuspendWorker | StartConflictAttempt | ScheduleConflictRetry | ReconcileObservation(to: Status)
    | RestoreRejectedInput | RestoreRejectedChecks | ResolveSuspension(action: Action, stage: Stage)

  function Allowed(from: Status, to: Status, statuses: set<Status>): Option<Status> {
    if from in statuses then Some(to) else None
  }

  function RetryTarget(stage: Stage): Option<Status> {
    match stage
    case ChecksStage => Some(AwaitingChecks)
    case ConflictStage => Some(ResolvingConflict)
    case NoStage => None
    case _ => Some(ResumePending)
  }

  /** The status a decision moves to, if it allows the status it starts from. */
  function Decide(d: Decision, from: Status): Option<Status> {
    match d
    case ScheduleRetry => Allowed(from, RetryWait, {Launching, Running, AwaitingChecks, AwaitingMerge})
    case Complete =>
      Allowed(from, Completed, {Launching, Running, AwaitingChecks, AwaitingMerge, ResumePending, Blocked, Failed})
    case RequestInput => Allowed(from, NeedsInput, {Running, ResolvingConflict})
    case AwaitChecks => Allowed(from, AwaitingChecks, {Launching, Running, ResumePending, ResolvingConflict})
    case AwaitMerge => Allowed(from, AwaitingMerge, {AwaitingChecks, AwaitingMerge})
    case ResolveConflict => Allowed(from, ResolvingConflict, {AwaitingChecks, AwaitingMerge})
    case StartClaim => Allowed(from, Claiming, {Unset, Claiming})
    case ResumeAfterAnswer(target) =>
      if target == ResumePending || target == ResolvingConflict then Allowed(from, target, {NeedsInput}) else None
    case ConfirmClaim => Allowed(from, Claimed, {Claiming})
    case StartClaimedWorker => Allowed(from, Launching, {Claimed})
    case StartAnsweredResume => Allowed(from, Launching, {ResumePending})
    case StartRetry => Allowed(from, Launching, {RetryWait})
    case ConfirmWorkerStarted => Allowed(from, Running, {Launching})
    case AbortWorkerLaunch(target) =>
      if target in {Claimed, ResumePending, RetryWait, ResolvingConflict} then Allowed(from, target, {Launching})
          else None
    case RecoverUnstartedWorker(target) =>
      if target in {Launching, RetryWait, Blocked} then Allowed(from, target, {Running}) else None
    case InterruptExecution => Allowed(from, RetryWait, {Claiming, Claimed, Launching, Running})
    case RejectAnsweredResume => Allowed(from, Blocked, {Launching})
    case RejectWorkerWorkspace => Allowed(from, Blocked, {Launching, Running, ResolvingConflict})
    case ExhaustPullRequestChecks => Allowed(from, Failed, {AwaitingChecks, AwaitingMerge})
    case BlockPullRequestLifecycle => Allowed(from, Blocked, {AwaitingChecks, AwaitingMerge})
    case Fail(blocked) =>
      Allowed(from, if blocked then Blocked else Failed,
              {Unset, Claimed, Launching, Running, AwaitingChecks, AwaitingMerge, ResumePending, ResolvingConflict,
                  RetryWait})
    case SuspendWorker => Allowed(from, Blocked, {Running})
    case StartConflictAttempt => Allowed(from, Launching, {ResolvingConflict, Launching})
    case ScheduleConflictRetry => Allowed(from, ResolvingConflict, {Launching, Running, ResolvingConflict})
    case ReconcileObservation(to) => Reconcile(from, to)
    case RestoreRejectedInput => Allowed(from, NeedsInput, {Running})
    case RestoreRejectedChecks => Allowed(from, AwaitingChecks, {RetryWait})
    case ResolveSuspension(action, stage) => Resolve(from, action, stage)
  }

  function Reconcile(from: Status, to: Status): Option<Status> {
    if from == to then Some(to)
    else match to
      case RetryWait => Allowed(from, to, {Claiming, Claimed, Launching, Running})
      case AwaitingChecks => Allowed(from, to, {Completed})
      case AwaitingMerge => Allowed(from, to, {Completed})
      case Completed => ReconcileOutcome(from, to)
      case Failed => ReconcileOutcome(from, to)
      case Blocked => ReconcileOutcome(from, to)
      case Canceled => Allowed(from, to, {Blocked, Failed})
      case _ => None
  }

  function ReconcileOutcome(from: Status, to: Status): Option<Status> {
    if from == Unset || from == Canceled then None else Some(to)
  }

  function Resolve(from: Status, action: Action, stage: Stage): Option<Status> {
    if !from.Suspended() then None
    else match action
      case Resume => Some(ResumePending)
      case RetryStage => RetryTarget(stage)
      case AdoptPr => Some(Completed)
      case Cancel => Some(Canceled)
      case _ => None
  }

  /** Canceled is final: no decision leaves it. */
  lemma CanceledIsFinal(d: Decision)
    ensures Decide(d, Canceled).None? || Decide(d, Canceled) == Some(Canceled)
  {
    match d {
      case _ =>
    }
  }

  // ---------------------------------------------------------------- the lifecycle as a graph

  /** The statuses from which some decision, other than reconciling an observation, leads to `to`. */
  function Before(to: Status): set<Status> {
    match to
    case Unset => {}
    case Claiming => {Unset, Claiming}
    case Claimed => {Claiming, Launching}
    case Launching => {Claimed, ResumePending, RetryWait, ResolvingConflict, Launching, Running}
    case Running => {Launching}
    case ResumePending => {NeedsInput, Launching, Blocked, Failed}
    case RetryWait => {Claiming, Claimed, Launching, Running, AwaitingChecks, AwaitingMerge}
    case NeedsInput => {Running, ResolvingConflict}
    case AwaitingChecks => {Launching, Running, ResumePending, RetryWait, ResolvingConflict, Blocked, Failed}
    case AwaitingMerge => {AwaitingChecks, AwaitingMerge}
    case ResolvingConflict =>
      {NeedsInput, Launching, Running, AwaitingChecks, AwaitingMerge, ResolvingConflict, Blocked, Failed}
    case Blocked =>
      {Unset, Claimed, Launching, Running, ResumePending, RetryWait, AwaitingChecks, AwaitingMerge, ResolvingConflict}
    case Failed =>
      {Unset, Claimed, Launching, Running, ResumePending, RetryWait, AwaitingChecks, AwaitingMerge, ResolvingConflict}
    case Completed => {Launching, Running, ResumePending, AwaitingChecks, AwaitingMerge, Blocked, Failed}
    case Canceled => {Blocked, Failed}
  }

  /** A decision that takes the edge. */
  function Via(from: Status, to: Status): Decision {
    match to
    case Unset => StartClaim
    case Claiming => StartClaim
    case Claimed => if from.Claiming? then ConfirmClaim else AbortWorkerLaunch(Claimed)
    case Launching =>
      if from.Claimed? then StartClaimedWorker
      else if from.ResumePending? then StartAnsweredResume
      else if from.RetryWait? then StartRetry
      else if from.Running? then RecoverUnstartedWorker(Launching)
      else StartConflictAttempt
    case Running => ConfirmWorkerStarted
    case ResumePending =>
      if from.NeedsInput? then ResumeAfterAnswer(ResumePending)
      else if from.Launching? then AbortWorkerLaunch(ResumePending)
      else ResolveSuspension(Resume, NoStage)
    case RetryWait => if from.Claiming? || from.Claimed? then InterruptExecution else ScheduleRetry
    case NeedsInput => RequestInput
    case AwaitingChecks =>
      if from.Suspended() then ResolveSuspension(RetryStage, ChecksStage)
      else if from.RetryWait? then RestoreRejectedChecks else AwaitChecks
    case AwaitingMerge => AwaitMerge
    case ResolvingConflict =>
      if from.Suspended() then ResolveSuspension(RetryStage, ConflictStage)
      else if from.NeedsInput? then ResumeAfterAnswer(ResolvingConflict)
      else if from.AwaitingChecks? || from.AwaitingMerge? then ResolveConflict
      else ScheduleConflictRetry
    case Blocked => Fail(true)
    case Failed => Fail(false)
    case Completed => Complete
    case Canceled => ResolveSuspension(Cancel, NoStage)
  }

  /** The decisions make exactly that graph: no worker runs that was not launched, nothing is launched that was
      neither claimed, parked nor already under way, and only what is suspended is canceled. */
  lemma DecisionsMakeTheGraph(from: Status, to: Status)
    ensures from in Before(to) <==> exists d: Decision :: !d.ReconcileObservation? && Decide(d, from) == Some(to)
  {
    if from in Before(to) {
      assert Decide(Via(from, to), from) == Some(to) by { ViaLeads(from, to); }
    }
    if d: Decision :| !d.ReconcileObservation? && Decide(d, from) == Some(to) {
      EdgeIsKnown(d, from, to);
    }
  }

  lemma ViaLeads(from: Status, to: Status)
    requires from in Before(to)
    ensures Decide(Via(from, to), from) == Some(to) && !Via(from, to).ReconcileObservation?
  {
    hide Decide, Via, Before;
    if to.Terminal() {
      ViaEnds(from, to);
    } else if to.RequiresActiveExecution() || to.Unset? {
      ViaExecutes(from, to);
    } else {
      ViaWaits(from, to);
    }
  }

  lemma ViaExecutes(from: Status, to: Status)
    requires from in Before(to) && (to.RequiresActiveExecution() || to.Unset?)
    ensures Decide(Via(from, to), from) == Some(to) && !Via(from, to).ReconcileObservation?
  {
    hide Reconcile, Resolve;
  }

  lemma ViaWaits(from: Status, to: Status)
    requires from in Before(to) && !to.Terminal() && !to.RequiresActiveExecution()
    ensures Decide(Via(from, to), from) == Some(to) && !Via(from, to).ReconcileObservation?
  {
    hide Reconcile;
  }

  lemma ViaEnds(from: Status, to: Status)
    requires from in Before(to) && to.Terminal()
    ensures Decide(Via(from, to), from) == Some(to) && !Via(from, to).ReconcileObservation?
  {
    hide Reconcile;
  }

  lemma EdgeIsKnown(d: Decision, from: Status, to: Status)
    requires !d.ReconcileObservation? && Decide(d, from) == Some(to)
    ensures from in Before(to)
  {
    hide Reconcile, Resolve;
    if d.ResolveSuspension? { ResolutionIsKnown(d.action, d.stage, from, to); }
  }

  lemma ResolutionIsKnown(action: Action, stage: Stage, from: Status, to: Status)
    requires Resolve(from, action, stage) == Some(to)
    ensures from in Before(to)
  {
  }
}
