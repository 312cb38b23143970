/** Pure domain rules: the worker lifecycle, control admission and the route gate. */
module Core {
  import opened Common
  import opened Events

  /** Current goal and phase of one worker (crates/core/src/orchestration.rs). */
  datatype Lifecycle = Lifecycle(goal: Option<int>, phase: WorkerPhase)

  const FRESH_LIFECYCLE := Lifecycle(None, Unassigned)

  /** A goal is accepted when there is none, or when the previous one is terminal. */
  function AssignGoal(life: Lifecycle, goal: int): Option<Lifecycle> {
    if life.goal.Some? && !life.phase.Terminal() then None else Some(Lifecycle(Some(goal), Ready))
  }

  /** One lifecycle transition; `None` is the source's typed transition error. */
  function Act(life: Lifecycle, goal: int, action: WorkerAction): Option<Lifecycle> {
    if life.goal != Some(goal) then None
    else
      match action
      case StartOrResume =>
        if life.phase in {Ready, NeedsInput, Blocked} then Some(life.(phase := Working)) else None
      case ReportProgress => if life.phase.Working? then Some(life) else None
      case RequestInput => if life.phase.Working? then Some(life.(phase := NeedsInput)) else None
      case MarkBlocked => if life.phase.Working? then Some(life.(phase := Blocked)) else None
      case Complete => Finish(life, Completed, life.phase.Working?)
      case Fail => Finish(life, Failed, true)
      case Stop => Finish(life, Stopped, true)
  }

  /** Observing the same terminal fact again is accepted without change. */
  function Finish(life: Lifecycle, terminal: WorkerPhase, allowed: bool): Option<Lifecycle> {
    if life.phase == terminal then Some(life)
    else if life.phase.Terminal() || !allowed then None
    else Some(life.(phase := terminal))
  }

  /** `validate_control_admission`: the phase in which a control is admissible. */
  function Admission(life: Lifecycle, goal: int, order: ControlKind): Option<WorkerPhase> {
    if life.goal != Some(goal) then None
    else
      match order
      case Start => if life.phase in {Ready, NeedsInput, Blocked} then Some(life.phase) else None
      case Continue(ordinal) => if ordinal > 0 && life.phase.Working? then Some(life.phase) else None
      case Halt => if !life.phase.Terminal() then Some(life.phase) else None
      case Status => Some(life.phase)
  }

  /** The lifecycle action performed by a mutating control. */
  function ActionOf(order: ControlKind): Option<WorkerAction> {
    match order
    case Start => Some(StartOrResume)
    case Halt => Some(Stop)
    case _ => None
  }

  function ResultingPhase(order: ControlKind): Option<WorkerPhase> {
    match order
    case Start => Some(Working)
    case Halt => Some(Stopped)
    case _ => None
  }

  /** An admissible mutating control always has its transition, and always the same result. */
  lemma AdmissionEnablesAction(life: Lifecycle, goal: int, order: ControlKind)
    requires Admission(life, goal, order).Some? && ActionOf(order).Some?
    ensures Act(life, goal, ActionOf(order).value) == Some(Lifecycle(Some(goal), ResultingPhase(order).value))
  {
  }

  // Route gate (crates/core/src/routing.rs)
  datatype GateState = Pending | Allowed(grant: Authority) | Denied(grant: Authority) | Dispatched(grant: Authority)

  function InitialGate(policy: RoutePolicy): GateState {
    match policy
    case AllowByPolicy => Allowed(Policy)
    case DenyByPolicy => Denied(Policy)
    case RequireApproval => Pending
  }

  /** `user_allow` and `user_deny`; `None` is `AlreadyDispatched`. */
  function Decide(gate: GateState, decision: RouteDecision): Option<GateState> {
    if gate.Dispatched? then None
    else Some(if decision.Allow? then Allowed(User) else Denied(User))
  }

  /** `authorize_dispatch`: the authority of the one-shot permit. */
  function AuthorizeDispatch(gate: GateState): Option<Authority> {
    if gate.Allowed? then Some(gate.grant) else None
  }

  /** The authority under which a route with this policy may be executed. */
  function ExpectedAuthority(policy: RoutePolicy): Option<Authority> {
    match policy
    case AllowByPolicy => Some(Policy)
    case RequireApproval => Some(User)
    case DenyByPolicy => None
  }
}
