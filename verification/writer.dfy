/** What each checked append of apps/desktop/src/journal_ops.rs writes, and when it refuses.

    `Plan` gives the events a command appends if nothing interrupts it; `None` is a refusal that
    appends nothing. A crash or a failing append leaves a prefix of the plan durable (`After`),
    and a run is any sequence of commands, each cut anywhere (`Run`). Fresh identities
    (`next_available_*`) are command parameters; argument parsing, adapter eligibility and legacy
    envelopes are Boolean parameters, so every theorem holds for all their outcomes. */
module Writer {
  import opened Common
  import opened Events
  import opened Core
  import opened Replaying

  /** Which adapter asks to run an approved tool call. */
  datatype Executor = Builtin | LocalHttp | HostShell
  datatype ControlAction = AskStart | AskContinue | AskStop | AskStatus

  datatype Command =
    | BindTopology(conversation: int, container: int, session: int)
    | BindEndpoint(conversation: int, session: int, endpoint: int)
    | ProposeMessage(route: int, sender: int, receiver: int)
    | AttachPayload(payload: int, route: int, text: string)
    | DecideMessage(route: int, decision: RouteDecision)
    | DeliverMessage(route: int)
    | RegisterProvider(provider: int, name: string)
    | BindProvider(provider: int, endpoint: int)
    | ProposeCall(call: int, route: int, conversation: int, provider: int, operation: string,
                  arguments: string, policy: RoutePolicy, wellFormed: bool)
    | DecideCall(route: int, decision: RouteDecision)
    | Execute(executor: Executor, route: int, ready: bool, text: string)
    | RecordOutcome(call: int, route: int, kind: OutcomeKind, text: string)
    | DecideResult(call: int, conversation: int, verdict: MemoryDecision)
    | RecordMemory(memory: int, conversation: int, text: string)
    | DecideMemory(memory: int, conversation: int, verdict: MemoryDecision)
    | SupersedeMemory(older: int, newer: int)
    | BindWorkerId(conversation: int, worker: int)
    | BindWorkerSession(conversation: int, worker: int)
    | DesignateController(conversation: int)
    | Supervise(controller: int, subject: int)
    | GrantLease(controller: int, subject: int, lease: int, allowance: int)
    | ProposeControl(controller: int, subject: int, control: int, route: int, ask: ControlAction)
    | DecideControl(route: int, decision: RouteDecision)
    | DispatchControl(route: int)
    | AckControl(conversation: int, route: int)
    | ApplyControl(conversation: int, route: int)
    | StartExecution(conversation: int, route: int, turn: int)
    | AssignWorkerGoal(worker: int, goal: int)
    | MoveWorker(worker: int, goal: int, action: WorkerAction)
    // environment: container maintenance that journal_ops.rs observes but does not perform
    | RegisterSession(session: int)
    | SetPhase(container: int, session: int, after: SessionPhase)
    | JoinSuccessor(container: int, successor: int, handoff: int)

  type Planned = Option<seq<Event>>

  /** A plan of one event, appended when the guard holds. */
  function One(guard: bool, e: Event): Planned {
    if guard then Some([e]) else None
  }

  function Plan(s: State, c: Command): Planned {
    match c
    case BindTopology(v, box, session) => PlanBindTopology(s, v, box, session)
    case BindEndpoint(v, session, ep) => PlanBindEndpoint(s, v, session, ep)
    case ProposeMessage(r, a, b) => PlanProposeMessage(s, r, a, b)
    case AttachPayload(p, r, text) => PlanAttachPayload(s, p, r, text)
    case DecideMessage(r, d) => PlanDecideMessage(s, r, d)
    case DeliverMessage(r) => PlanDeliverMessage(s, r)
    case RegisterProvider(p, name) => One(p !in s.prov.table, Prov(ProviderRegistered(p, name)))
    case BindProvider(p, ep) => PlanBindProvider(s, p, ep)
    case ProposeCall(id, r, v, p, operation, arguments, policy, wellFormed) =>
      if wellFormed then PlanProposeCall(s, id, r, v, p, operation, arguments, policy) else None
    case DecideCall(r, d) => One(Decidable(s, r, d, ToolCall) && r in s.tools.routeOwner, Routing(RouteDecided(r, d)))
    case Execute(x, r, ready, text) => if ready then PlanExecute(s, x, r, text) else None
    case RecordOutcome(id, r, kind, text) =>
      One(AcceptsTools(s, ToolOutcome(id, r, kind, text)), Tool(ToolOutcome(id, r, kind, text)))
    case DecideResult(id, v, verdict) => PlanDecideResult(s, id, v, verdict)
    case RecordMemory(m, v, text) =>
      One(!Blank(text) && m !in s.mem.artifacts, Recall(MemoryRecorded(m, v, text)))
    case DecideMemory(m, v, verdict) => PlanDecideMemory(s, m, v, verdict)
    case SupersedeMemory(older, newer) => PlanSupersedeMemory(s, older, newer)
    case BindWorkerId(v, w) => PlanBindWorkerId(s, v, w)
    case BindWorkerSession(v, w) => PlanBindWorkerSession(s, v, w)
    case DesignateController(v) => PlanDesignateController(s, v)
    case Supervise(cv, wv) => PlanSupervise(s, cv, wv)
    case GrantLease(cv, wv, l, allowance) => PlanGrantLease(s, cv, wv, l, allowance)
    case ProposeControl(cv, wv, id, r, ask) => PlanProposeControl(s, cv, wv, id, r, ask)
    case DecideControl(r, d) => PlanDecideControl(s, r, d)
    case DispatchControl(r) => PlanDispatchControl(s, r)
    case AckControl(v, r) => PlanAckControl(s, v, r)
    case ApplyControl(v, r) => PlanApplyControl(s, v, r)
    case StartExecution(v, r, turn) => PlanStartExecution(s, v, r, turn)
    case AssignWorkerGoal(w, goal) => PlanAssignGoal(s, w, goal)
    case MoveWorker(w, goal, action) => PlanMoveWorker(s, w, goal, action)
    case RegisterSession(session) => One(session !in s.top.sessions, Top(SessionRegistered(session)))
    case SetPhase(box, session, after) => PlanSetPhase(s, box, session, after)
    case JoinSuccessor(box, new_, handoff) => PlanJoinSuccessor(s, box, new_, handoff)
  }

  // ---- Topology and providers

  function PlanBindTopology(s: State, v: int, box: int, session: int): Planned {
    if v !in s.top.bindings && box !in s.top.tenant && session !in s.top.sessions && box !in s.top.containers then
      Some([Top(SessionRegistered(session)), Top(ContainerCreated(box, session)), Top(ConversationBound(v, box))])
    else None
  }

  function PlanBindEndpoint(s: State, v: int, session: int, ep: int): Planned {
    One(&& SeatOf(s.top, v).Some? && SeatOf(s.top, v).value.session == session
        && session in s.top.sessions && s.top.sessions[session].endpoint.None?
        && ep !in s.top.endpointOwner && ep !in s.prov.endpointOwner && !InRouteHistory(s, ep),
        Top(SessionEndpointBound(session, ep)))
  }

  function PlanBindProvider(s: State, p: int, ep: int): Planned {
    One(&& p in s.prov.table && s.prov.table[p].endpoint.None?
        && ep !in s.top.endpointOwner && ep !in s.prov.endpointOwner && !InRouteHistory(s, ep),
        Prov(ProviderEndpointBound(p, ep)))
  }

  function PlanSetPhase(s: State, box: int, session: int, after: SessionPhase): Planned {
    if box in s.top.containers && session in s.top.containers[box].members then
      var e := PhaseChanged(box, session, s.top.containers[box].members[session].phase, after);
      One(AcceptsTopology(s, e), Top(e))
    else None
  }

  function PlanJoinSuccessor(s: State, box: int, new_: int, handoff: int): Planned {
    if box in s.top.containers then
      var e := SuccessorJoined(box, s.top.containers[box].current, new_, handoff);
      One(AcceptsTopology(s, e), Top(e))
    else None
  }

  // ---- Session messages

  function PlanProposeMessage(s: State, r: int, a: int, b: int): Planned {
    var from, to := EntryOf(s.top, a), EntryOf(s.top, b);
    if a != b && r !in s.routes && from.Some? && to.Some?
       && from.value.phase.AcceptsOrdinaryTurns() && to.value.phase.AcceptsOrdinaryTurns() then
      Some([Routing(RouteProposed(RouteRequest(r, from.value.endpoint, to.value.endpoint, SessionMessage), RequireApproval))])
    else None
  }

  /** Both ends of the route resolve to current leaves that take ordinary turns. */
  predicate BothEndsLive(s: State, r: int) {
    && r in s.routes
    && var from, to := Resolve(s.top, s.routes[r].request.source), Resolve(s.top, s.routes[r].request.destination);
    && from.Some? && to.Some?
    && from.value.phase.AcceptsOrdinaryTurns() && to.value.phase.AcceptsOrdinaryTurns()
  }

  function Sender(s: State, r: int): int
    requires BothEndsLive(s, r)
  {
    Resolve(s.top, s.routes[r].request.source).value.conversation
  }

  function Receiver(s: State, r: int): int
    requires BothEndsLive(s, r)
  {
    Resolve(s.top, s.routes[r].request.destination).value.conversation
  }

  function PlanAttachPayload(s: State, p: int, r: int, text: string): Planned {
    if !Blank(text) && r !in s.mail.payloads && p !in s.mail.payloadOwner && r in s.routes
       && s.routes[r].request.category.SessionMessage? && !s.routes[r].gate.Dispatched?
       && BothEndsLive(s, r) && Sender(s, r) != Receiver(s, r) then
      Some([Post(PayloadAttached(p, r, Sender(s, r), Receiver(s, r), text))])
    else None
  }

  function PlanDecideMessage(s: State, r: int, d: RouteDecision): Planned {
    One(&& Decidable(s, r, d, SessionMessage) && (d.Allow? ==> r in s.mail.payloads) && BothEndsLive(s, r)
        && Sender(s, r) != Receiver(s, r),
        Routing(RouteDecided(r, d)))
  }

  /** The checks shared by the three user-decision appends. */
  predicate Decidable(s: State, r: int, d: RouteDecision, category: RouteClass) {
    && r in s.routes && s.routes[r].request.category == category && s.routes[r].policy.RequireApproval?
    && !s.routes[r].gate.Dispatched? && s.routes[r].decision != Some(d)
  }

  /** `route_gate_before_dispatch`: the gate rebuilt from the policy and the latest decision alone. */
  function RebuiltGate(route: Route): Option<GateState> {
    if route.decision.None? then Some(InitialGate(route.policy))
    else Decide(InitialGate(route.policy), route.decision.value)
  }

  /** The dispatch event of an approved route, nothing for an already dispatched one. */
  function DispatchPart(s: State, r: int): Planned
    requires r in s.routes
  {
    var route := s.routes[r];
    match route.gate
    case Allowed(grant) => if RebuiltGate(route) == Some(route.gate) then Some([Routing(RouteDispatched(r, grant))]) else None
    case Dispatched(_) => if route.dispatched.Some? then Some([]) else None
    case _ => None
  }

  /** The durable dispatch sequence after `DispatchPart` was appended. */
  function DispatchSequence(s: State, r: int): int
    requires r in s.routes && DispatchPart(s, r).Some?
  {
    if s.routes[r].gate.Allowed? then s.count + 1 else s.routes[r].dispatched.value
  }

  function PlanDeliverMessage(s: State, r: int): Planned {
    if r !in s.mail.deliveries && r in s.mail.payloads && r in s.routes
       && s.routes[r].request.category.SessionMessage? && s.routes[r].policy.RequireApproval?
       && BothEndsLive(s, r) && Sender(s, r) == s.mail.payloads[r].sender
       && Receiver(s, r) == s.mail.payloads[r].receiver && DispatchPart(s, r).Some? then
      var p := s.mail.payloads[r];
      Some(DispatchPart(s, r).value
           + [Post(RouteDelivered(r, p.id, p.sender, p.receiver,
                             Resolve(s.top, s.routes[r].request.source).value.session,
                             Resolve(s.top, s.routes[r].request.destination).value.session,
                             DispatchSequence(s, r)))])
    else None
  }

  // ---- Tool calls

  function PlanProposeCall(s: State, id: int, r: int, v: int, p: int, operation: string,
                           arguments: string, policy: RoutePolicy): Planned
  {
    var from := EntryOf(s.top, v);
    if !policy.DenyByPolicy? && id !in s.tools.calls && r !in s.routes
       && from.Some? && from.value.phase.AcceptsOrdinaryTurns()
       && p in s.prov.table && s.prov.table[p].endpoint.Some? then
      Some([Tool(ToolCallRecorded(id, from.value.session, p, operation, arguments)),
            Routing(RouteProposed(RouteRequest(r, from.value.endpoint, s.prov.table[p].endpoint.value.id, ToolCall), policy)),
            Tool(ToolCallRouteBound(id, r))])
    else None
  }

  /** A standing policy never overridden by a decision, or the user's latest word is Allow. */
  predicate Authorized(route: Route) {
    match route.policy
    case AllowByPolicy => route.gate == Allowed(Policy) && route.decision.None?
    case RequireApproval => route.gate == Allowed(User) && route.decision == Some(Allow)
    case DenyByPolicy => false
  }

  predicate Executable(s: State, r: int) {
    && r in s.tools.routeOwner && s.tools.routeOwner[r] in s.tools.calls
    && var call := s.tools.calls[s.tools.routeOwner[r]];
    && call.provider in s.prov.table && r in s.routes
    && s.routes[r].request.category.ToolCall? && Authorized(s.routes[r])
    && s.tools.routeOwner[r] !in s.tools.outcomes && r !in s.tools.outcomeOwner
    && var from := Resolve(s.top, s.routes[r].request.source);
    && from.Some? && from.value.session == call.session && from.value.phase.AcceptsOrdinaryTurns()
    && s.prov.table[call.provider].endpoint.Some?
    && s.prov.table[call.provider].endpoint.value.id == s.routes[r].request.destination
    && RebuiltGate(s.routes[r]) == Some(s.routes[r].gate)
  }

  /** The builtin adapter also records its prepared result, unless that is too large to record. */
  function PlanExecute(s: State, x: Executor, r: int, text: string): Planned {
    if Executable(s, r) then
      Some([Routing(RouteDispatched(r, s.routes[r].gate.grant))]
           + (if x.Builtin? && ByteLength(text) <= MAX_OUTCOME_BYTES
              then [Tool(ToolOutcome(s.tools.routeOwner[r], r, OutcomeKind.Result, text))] else []))
    else None
  }

  function PlanDecideResult(s: State, id: int, v: int, verdict: MemoryDecision): Planned {
    if id !in s.tools.outcomes then None
    else
      var e := ResultDecided(id, s.tools.outcomes[id].route, s.tools.outcomes[id].observed, v, verdict);
      One(&& !(id in s.tools.admissions && s.tools.admissions[id].verdict == verdict
               && s.tools.admissions[id].conversation == v)
          && AcceptsTools(s, e),
          Tool(e))
  }

  // ---- Memory

  function PlanDecideMemory(s: State, m: int, v: int, verdict: MemoryDecision): Planned {
    One(&& m in s.mem.artifacts && (verdict.Admit? ==> m !in s.mem.successor)
        && ((m, v) in s.mem.verdicts ==> s.mem.verdicts[(m, v)] != verdict),
        Recall(MemoryDecided(m, v, verdict)))
  }

  function PlanSupersedeMemory(s: State, older: int, newer: int): Planned {
    One(&& older != newer && older in s.mem.artifacts && newer in s.mem.artifacts
        && s.mem.artifacts[older].conversation == s.mem.artifacts[newer].conversation
        && s.mem.artifacts[older].at < s.mem.artifacts[newer].at
        && older !in s.mem.successor && newer !in s.mem.predecessor,
        Recall(MemorySuperseded(older, newer)))
  }

  // ---- Workers and supervision

  function PlanBindWorkerId(s: State, v: int, w: int): Planned {
    One(&& v !in s.staff.bindings && w !in s.staff.owner && w !in s.staff.lives
        && (forall x | x in s.top.sessions ::
              s.top.sessions[x].worker.None? || s.top.sessions[x].worker.value.id != w),
        Staff(WorkerBound(v, w)))
  }

  function PlanAssignGoal(s: State, w: int, goal: int): Planned {
    One(w in s.staff.owner && AssignGoal(LifecycleOf(s, w), goal).Some?, Staff(GoalAssigned(w, goal)))
  }

  function PlanMoveWorker(s: State, w: int, goal: int, action: WorkerAction): Planned {
    One(w in s.staff.owner && w in s.staff.lives && Act(s.staff.lives[w].lifecycle, goal, action).Some?,
        Staff(Transition(w, goal, action, None)))
  }

  function PlanDesignateController(s: State, v: int): Planned {
    if SeatOf(s.top, v).None? then None
    else
      var session := SeatOf(s.top, v).value.session;
      One(session in s.top.sessions && s.top.sessions[session].worker.None? && session !in s.sup.designated,
          Oversight(ControllerDesignated(session)))
  }

  function PlanSupervise(s: State, cv: int, wv: int): Planned {
    if !Seated(s, cv, wv) then None
    else
      var controller, session := SeatOf(s.top, cv).value.session, SeatOf(s.top, wv).value.session;
      One(session !in s.sup.supervisor && controller != session, Oversight(ControllerWorkerBound(controller, session)))
  }

  function PlanBindWorkerSession(s: State, v: int, w: int): Planned {
    var seat := SeatOf(s.top, v);
    if !(w in s.staff.owner && s.staff.owner[w] == v && seat.Some? && seat.value.session in s.top.sessions
         && seat.value.session !in s.sup.designated && s.top.sessions[seat.value.session].worker.None?) then None
    else if w !in s.top.active then Some([Top(WorkerSessionBound(w, seat.value.session))])
    else if s.top.active[w] != seat.value.session
            && s.top.containers[seat.value.container].members[seat.value.session].predecessor == Some(s.top.active[w]) then
      Some([Top(WorkerSessionMoved(w, s.top.active[w], seat.value.session))])
    else None
  }

  /** Two different seated conversations: a designated controller and a worker active on its seat. */
  predicate Seated(s: State, cv: int, wv: int) {
    && cv != wv && SeatOf(s.top, cv).Some? && SeatOf(s.top, wv).Some?
    && wv in s.staff.bindings && s.staff.bindings[wv] in s.top.active
    && s.top.active[s.staff.bindings[wv]] == SeatOf(s.top, wv).value.session
    && SeatOf(s.top, cv).value.session in s.sup.designated
  }

  /** ... and the controller supervises that worker session. */
  predicate Commands(s: State, cv: int, wv: int) {
    && Seated(s, cv, wv)
    && SupervisesWorker(s, SeatOf(s.top, cv).value.session, s.staff.bindings[wv])
  }

  // ---- Continuation authority and controls

  predicate Concerns(lease: Lease, w: int, goal: int) {
    lease.worker == w && lease.goal == goal
  }

  /** The leases of this worker and goal that still have allowance. */
  function LiveLeases(s: State, w: int, goal: int): set<int> {
    set l | l in s.auth.leases && Concerns(s.auth.leases[l], w, goal) && s.auth.leases[l].Remaining() > 0
  }

  /** The permits issued for this worker and goal that no control has consumed. */
  function OpenPermits(s: State, w: int, goal: int): set<PermitRef> {
    set l, o | l in s.auth.leases && Concerns(s.auth.leases[l], w, goal)
               && 1 <= o <= |s.auth.leases[l].permits| && s.auth.leases[l].permits[o - 1].consumed.None?
      :: PermitRef(l, o)
  }

  lemma SingletonHasOne<T>(x: set<T>, a: T, b: T)
    requires |x| == 1 && a in x && b in x
    ensures a == b
  {
    assert |x - {a}| == 0;
  }

  /** The element of a one-element set, as the slice pattern `[x]` binds it. */
  function TheOnly<T>(x: set<T>): (a: T)
    requires |x| == 1
    ensures a in x
  {
    assert forall a, b | a in x && b in x :: a == b by {
      forall a, b | a in x && b in x ensures a == b { SingletonHasOne(x, a, b); }
    }
    var a :| a in x;
    a
  }

  function PlanGrantLease(s: State, cv: int, wv: int, l: int, allowance: int): Planned {
    if !(allowance > 0 && Commands(s, cv, wv) && s.staff.bindings[wv] in s.staff.lives && l !in s.auth.leases) then None
    else
      var w := s.staff.bindings[wv];
      var life := s.staff.lives[w].lifecycle;
      if life.goal.Some? && !life.phase.Terminal()
         && LiveLeases(s, w, life.goal.value) == {} && OpenPermits(s, w, life.goal.value) == {} then
        Some([Grant(LeaseCreated(l, w, life.goal.value, allowance))])
      else None
  }

  /** What the control proposal admits: an optional permit issue, then the control itself. */
  datatype Admitted = Admitted(issue: seq<Event>, order: ControlKind, permit: Option<PermitRef>)

  /** The three ways a Continue ends: reuse the open permit, issue from the live lease, or refuse. */
  function PlanContinue(s: State, w: int, goal: int, life: Lifecycle): Option<Admitted> {
    var open, live := OpenPermits(s, w, goal), LiveLeases(s, w, goal);
    if |open| == 1 then
      var permit := TheOnly(open);
      if life.phase.Working? && permit.ordinal <= s.auth.leases[permit.lease].allowance then
        Some(Admitted([], Continue(permit.ordinal), Some(permit)))
      else None
    else if |open| == 0 && |live| == 1 then
      var l := TheOnly(live);
      var ordinal := s.auth.leases[l].Issued() + 1;
      if MayIssue(s.auth.leases[l], life) then
        Some(Admitted([Grant(PermitIssued(l, w, goal, ordinal))], Continue(ordinal), Some(PermitRef(l, ordinal))))
      else None
    else None
  }

  function PlanAdmission(s: State, w: int, goal: int, life: Lifecycle, ask: ControlAction): Option<Admitted> {
    match ask
    case AskStart => if Admission(life, goal, Start).Some? then Some(Admitted([], Start, None)) else None
    case AskStop => if Admission(life, goal, Halt).Some? then Some(Admitted([], Halt, None)) else None
    case AskStatus => if Admission(life, goal, Status).Some? then Some(Admitted([], Status, None)) else None
    case AskContinue => PlanContinue(s, w, goal, life)
  }

  function PlanProposeControl(s: State, cv: int, wv: int, id: int, r: int, ask: ControlAction): Planned {
    if !(Commands(s, cv, wv) && EntryOf(s.top, cv).Some? && EntryOf(s.top, wv).Some?
         && s.staff.bindings[wv] in s.staff.lives && id !in s.auth.controls && r !in s.routes) then None
    else
      var w := s.staff.bindings[wv];
      var life := s.staff.lives[w].lifecycle;
      if life.goal.None? then None
      else
        match PlanAdmission(s, w, life.goal.value, life, ask)
        case None => None
        case Some(a) =>
          Some(a.issue
               + [Grant(ControlAdmitted(id, w, life.goal.value, a.order, a.permit)),
                  Carry(IssuerBound(id, SeatOf(s.top, cv).value.session)),
                  Routing(RouteProposed(RouteRequest(r, EntryOf(s.top, cv).value.endpoint,
                                             EntryOf(s.top, wv).value.endpoint, OrchestrationControl), RequireApproval)),
                  Carry(ControlRouteBound(id, r))])
  }

  function PlanDecideControl(s: State, r: int, d: RouteDecision): Planned {
    One(&& r in s.car.controlOf && s.car.controlOf[r] in s.auth.controls
        && Decidable(s, r, d, OrchestrationControl) && Fresh(s, s.auth.controls[s.car.controlOf[r]]),
        Routing(RouteDecided(r, d)))
  }

  function PlanDispatchControl(s: State, r: int): Planned {
    if !(r !in s.car.deliveries && r in s.routes && r in s.car.controlOf
         && s.car.controlOf[r] in s.auth.controls && s.car.controlOf[r] in s.car.issuers
         && s.car.controlOf[r] in s.car.routeOf
         && (s.routes[r].gate.Allowed? ==> Fresh(s, s.auth.controls[s.car.controlOf[r]]))
         && DispatchPart(s, r).Some?) then None
    else
      var c := s.car.controlOf[r];
      var w := s.auth.controls[c].worker;
      Some(DispatchPart(s, r).value
           + (if w in s.staff.owner && s.routes[r].gate.grant.User? then
                [Carry(ControlDelivered(c, r, w, s.staff.owner[w], s.car.routeOf[c].session, s.car.issuers[c].id,
                                  DispatchSequence(s, r)))]
              else []))
  }

  /** The worker inbox of the conversation holds the route. */
  predicate InInbox(s: State, v: int, r: int) {
    r in s.car.deliveries && s.car.deliveries[r].conversation == v && s.car.deliveries[r].control in s.auth.controls
  }

  function PlanAckControl(s: State, v: int, r: int): Planned {
    if InInbox(s, v, r) then
      var d := s.car.deliveries[r];
      One(r !in s.car.acks && v in s.staff.bindings && s.staff.bindings[v] == d.worker,
          Carry(ControlAcked(d.control, r, d.worker, v, d.at)))
    else None
  }

  /** ... acknowledged, by the conversation that owns the worker. */
  predicate Actionable(s: State, v: int, r: int) {
    && InInbox(s, v, r) && r in s.car.acks
    && v in s.staff.bindings && s.staff.bindings[v] == s.car.deliveries[r].worker
  }

  /** The recorded action still matches the inbox item. */
  predicate SameProvenance(s: State, v: int, r: int)
    requires Actionable(s, v, r) && r in s.work.actions
  {
    var a, d := s.work.actions[r], s.car.deliveries[r];
    && a.control == d.control && a.worker == d.worker && a.conversation == v
    && a.goal == s.auth.controls[d.control].goal && a.order == s.auth.controls[d.control].order
    && a.acked == s.car.acks[r].at
  }

  /** Three durable phases: start, lifecycle transition, result; resumes after the last one recorded. */
  function PlanApplyControl(s: State, v: int, r: int): Planned {
    if !(Actionable(s, v, r) && ActionOf(s.auth.controls[s.car.deliveries[r].control].order).Some?) then None
    else
      var c, w := s.car.deliveries[r].control, s.car.deliveries[r].worker;
      var goal, order := s.auth.controls[c].goal, s.auth.controls[c].order;
      var action, after := ActionOf(order).value, ResultingPhase(order).value;
      if r !in s.work.actions then
        var phase := Admission(LifecycleOf(s, w), goal, order);
        if w in s.staff.lives && phase.Some? then
          Some([Doing(ActionStarted(c, r, w, v, goal, order, s.car.acks[r].at, phase.value)),
                Staff(Transition(w, goal, action, Some(Cause(c, r, s.count + 1)))),
                Doing(ActionResult(c, r, w, v, goal, order, s.count + 1, s.count + 2, after))])
        else None
      else
        var a := s.work.actions[r];
        if !SameProvenance(s, v, r) || a.result.Some? then None
        else if a.transition.None? then
          if w in s.staff.lives && s.staff.lives[w].last <= a.started
             && Admission(s.staff.lives[w].lifecycle, goal, order) == Some(a.phase) then
            Some([Staff(Transition(w, goal, action, Some(Cause(c, r, a.started)))),
                  Doing(ActionResult(c, r, w, v, goal, order, a.started, s.count + 1, after))])
          else None
        else if a.resulting.Some? then
          Some([Doing(ActionResult(c, r, w, v, goal, order, a.started, a.transition.value, a.resulting.value))])
        else None
  }

  function PlanStartExecution(s: State, v: int, r: int, turn: int): Planned {
    if !(Actionable(s, v, r) && turn !in s.work.turns) then None
    else
      var c, w := s.car.deliveries[r].control, s.car.deliveries[r].worker;
      var control := s.auth.controls[c];
      if control.order.Continue? && r !in s.work.executions && c !in s.work.executionOf
         && control.permit.Some? && control.permit.value.ordinal == control.order.ordinal
         && w in s.staff.lives && s.staff.lives[w].lifecycle == Lifecycle(Some(control.goal), Working) then
        Some([Doing(ExecutionStarted(c, r, w, v, control.goal, control.permit.value.lease, control.permit.value.ordinal,
                               s.car.acks[r].at, turn))])
      else None
  }

  // ---- Runs

  /** One command, interrupted after at most `cut` appends. */
  datatype Step = Step(command: Command, cut: nat)

  /** The durable journal after one step: nothing on a refusal, a prefix of the plan otherwise. */
  function After(j: Journal, step: Step): Journal {
    match Replay(j)
    case None => j
    case Some(s) =>
      match Plan(s, step.command)
      case None => j
      case Some(events) => j + events[..Min(step.cut, |events|)]
  }

  /** Every journal the writer can leave behind. */
  function Run(steps: seq<Step>): Journal {
    if steps == [] then [] else After(Run(steps[..|steps| - 1]), steps[|steps| - 1])
  }
}
