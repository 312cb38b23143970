/** The store's replay audits (the audit files of crates/store/src) as one fold over the journal.

    `State` collects the maps the audits build, `Accepts` their checks on the next event and
    `Apply` their updates. The fold fails closed: one rejected event makes the whole replay fail.
    Where an audit checks an event against the final maps instead of the prefix, `Accepts` puts
    the same check on whichever of the two events comes later, so the same journals are rejected. */
module Replaying {
  import opened Common
  import opened Events
  import opened Core

  // ---- session_audit.rs, chat_container_audit.rs, local_conversation_chat_container_audit.rs

  datatype Session = Session(registered: int, endpoint: Option<Stamped>, worker: Option<Stamped>)
  datatype Member = Member(phase: SessionPhase, predecessor: Option<int>, successor: Option<int>)
  datatype Container = Container(current: int, members: map<int, Member>)
  datatype Topology = Topology(
    sessions: map<int, Session>,
    endpointOwner: map<int, int>,     // endpoint -> session
    active: map<int, int>,            // worker -> active session
    containers: map<int, Container>,
    home: map<int, int>,              // session -> container
    handoffs: set<int>,
    bindings: map<int, int>,          // conversation -> container
    tenant: map<int, int>)            // container -> conversation

  // ---- tool_provider_audit.rs

  datatype Provider = Provider(name: string, registered: int, endpoint: Option<Stamped>)
  datatype Providers = Providers(table: map<int, Provider>, endpointOwner: map<int, int>)

  // ---- routing_audit.rs

  datatype Route = Route(request: RouteRequest, policy: RoutePolicy, gate: GateState,
                         decision: Option<RouteDecision>, proposed: int, dispatched: Option<int>)

  // ---- local_route_payload_audit.rs, local_route_delivery_audit.rs

  datatype Payload = Payload(id: int, sender: int, receiver: int, text: string, at: int)
  datatype Delivery = Delivery(payload: int, sender: int, receiver: int,
                               senderSession: int, receiverSession: int, dispatch: int, at: int)
  datatype Mail = Mail(payloads: map<int, Payload>, payloadOwner: map<int, int>, deliveries: map<int, Delivery>)

  // ---- tool_call_audit.rs, tool_outcome_audit.rs

  datatype Call = Call(session: int, provider: int, operation: string, arguments: string,
                       recorded: int, route: Option<Stamped>)

  /** `owner` is the conversation that owned the source session when the outcome was observed. */
  datatype Outcome = Outcome(route: int, provider: int, session: int, kind: OutcomeKind, text: string,
                             recorded: int, bound: int, dispatch: int, observed: int, owner: Option<int>)

  /** A context decision on an outcome (tool_result_context_audit.rs). */
  datatype Evidence = Evidence(route: int, provider: int, session: int, conversation: int, observed: int,
                                   kind: OutcomeKind, verdict: MemoryDecision, first: int, last: int)
  datatype Tools = Tools(calls: map<int, Call>, routeOwner: map<int, int>,
                         outcomes: map<int, Outcome>, outcomeOwner: map<int, int>, admissions: map<int, Evidence>)

  // ---- local_memory_audit.rs, local_memory_context_audit.rs, local_memory_supersession_audit.rs

  datatype Artifact = Artifact(conversation: int, text: string, at: int)
  datatype Memory = Memory(artifacts: map<int, Artifact>, verdicts: map<(int, int), MemoryDecision>,
                           successor: map<int, Stamped>, predecessor: map<int, int>)

  // ---- worker_audit.rs, local_conversation_worker_audit.rs, supervision_audit.rs

  datatype Life = Life(lifecycle: Lifecycle, last: int)
  datatype Workers = Workers(bindings: map<int, int>, owner: map<int, int>, lives: map<int, Life>)
  datatype Supervision = Supervision(designated: map<int, int>, supervisor: map<int, Stamped>)

  // ---- control_audit.rs, continuation_audit.rs

  datatype Permit = Permit(issued: int, consumed: Option<Stamped>)
  datatype Lease = Lease(worker: int, goal: int, allowance: int, created: int, permits: seq<Permit>) {
    function Issued(): int { |permits| }
    function Remaining(): int { allowance - |permits| }
  }
  datatype Control = Control(worker: int, goal: int, order: ControlKind, permit: Option<PermitRef>, at: int)
  datatype Mandate = Mandate(leases: map<int, Lease>, controls: map<int, Control>)

  // ---- control_provenance_audit.rs ... control_ack_audit.rs

  /** A control-route binding with the worker session it resolved to. */
  datatype Carried = Carried(route: int, session: int, at: int)
  datatype ControlDelivery = ControlDelivery(control: int, worker: int, conversation: int,
                                             session: int, controller: int, dispatch: int, at: int)
  datatype Carriage = Carriage(issuers: map<int, Stamped>, routeOf: map<int, Carried>, controlOf: map<int, int>,
                               deliveries: map<int, ControlDelivery>, deliveredOn: map<int, int>,
                               acks: map<int, Stamped>, ackedOn: map<int, int>)

  // ---- control_action_audit.rs, continuation_execution_audit.rs

  datatype Action = Action(control: int, worker: int, conversation: int, goal: int, order: ControlKind,
                           acked: int, phase: WorkerPhase, started: int,
                           transition: Option<int>, resulting: Option<WorkerPhase>, result: Option<int>)
  datatype Execution = Execution(control: int, worker: int, conversation: int, goal: int, lease: int,
                                 ordinal: int, acked: int, turn: int, started: int)
  datatype Work = Work(actions: map<int, Action>, actionOf: map<int, int>,
                       executions: map<int, Execution>, executionOf: map<int, int>, turns: set<int>)

  datatype State = State(
    count: int,
    top: Topology,
    prov: Providers,
    routes: map<int, Route>,
    mail: Mail,
    tools: Tools,
    mem: Memory,
    staff: Workers,
    sup: Supervision,
    auth: Mandate,
    car: Carriage,
    work: Work)

  const EMPTY := State(
    0,
    Topology(map[], map[], map[], map[], map[], {}, map[], map[]),
    Providers(map[], map[]),
    map[],
    Mail(map[], map[], map[]),
    Tools(map[], map[], map[], map[], map[]),
    Memory(map[], map[], map[], map[]),
    Workers(map[], map[], map[]),
    Supervision(map[], map[]),
    Mandate(map[], map[]),
    Carriage(map[], map[], map[], map[], map[], map[], map[]),
    Work(map[], map[], map[], map[], {}))

  // ---- Derived views

  /** A conversation's current execution leaf (`LocalConversationTopologyRecord`). */
  datatype Seat = Seat(conversation: int, container: int, session: int, phase: SessionPhase)

  function SeatOf(t: Topology, conversation: int): Option<Seat> {
    if conversation !in t.bindings then None
    else
      var c := t.bindings[conversation];
      if c !in t.containers then None
      else
        var box := t.containers[c];
        if box.current !in box.members then None
        else Some(Seat(conversation, c, box.current, box.members[box.current].phase))
  }

  /** A routing directory entry (local_routing_directory.rs): an addressable leaf. */
  datatype Entry = Entry(conversation: int, session: int, endpoint: int, phase: SessionPhase)

  function EntryOf(t: Topology, conversation: int): Option<Entry> {
    match SeatOf(t, conversation)
    case None => None
    case Some(seat) =>
      if seat.session in t.sessions && t.sessions[seat.session].endpoint.Some? then
        Some(Entry(conversation, seat.session, t.sessions[seat.session].endpoint.value.id, seat.phase))
      else None
  }

  /** `directory.find(|entry| entry.endpoint_id == endpoint)`, through the audits' inverse maps. */
  function Resolve(t: Topology, endpoint: int): Option<Entry> {
    if endpoint !in t.endpointOwner then None
    else
      var session := t.endpointOwner[endpoint];
      if session !in t.home || t.home[session] !in t.tenant then None
      else
        var entry := EntryOf(t, t.tenant[t.home[session]]);
        if entry.Some? && entry.value.endpoint == endpoint then entry else None
  }

  /** The conversation whose container holds the session, if any. */
  function ConversationOf(t: Topology, session: int): Option<int> {
    if session in t.home && t.home[session] in t.tenant then Some(t.tenant[t.home[session]]) else None
  }

  /** `validate_control_freshness_before`, at the current end of the journal. */
  predicate Fresh(s: State, control: Control) {
    control.worker in s.staff.lives
    && Admission(s.staff.lives[control.worker].lifecycle, control.goal, control.order).Some?
  }

  predicate Unconsumed(lease: Lease, ordinal: int) {
    1 <= ordinal <= |lease.permits| && lease.permits[ordinal - 1].consumed.None?
  }

  /** `ContinuationLease::authorize` succeeds. */
  predicate MayIssue(lease: Lease, life: Lifecycle) {
    life.goal == Some(lease.goal) && life.phase.Working? && lease.Remaining() > 0
  }

  const MAX_OUTCOME_BYTES := 1048576
  const MAX_CONTEXT_BYTES := 65536

  // ---- The audits' checks, one predicate per audit group

  predicate AcceptsTopology(s: State, e: TopEvent) {
    var t := s.top;
    match e
    case SessionRegistered(session) => session !in t.sessions
    case ContainerCreated(c, root) => root in t.sessions && c !in t.containers && root !in t.home
    case ConversationBound(v, c) => c in t.containers && v !in t.bindings && c !in t.tenant
    case PhaseChanged(c, session, before, after) =>
      && before.CanTransitionTo(after) && c in t.containers && t.containers[c].current == session
      && session in t.containers[c].members && t.containers[c].members[session].phase == before
    case SuccessorJoined(c, old_, new_, handoff) =>
      && old_ != new_ && new_ in t.sessions && new_ !in t.home && handoff !in t.handoffs
      && c in t.containers && t.containers[c].current == old_ && old_ in t.containers[c].members
      && t.containers[c].members[old_].phase.Saturated? && t.containers[c].members[old_].successor.None?
    case SessionEndpointBound(session, ep) =>
      && session in t.sessions && t.sessions[session].endpoint.None?
      && ep !in t.endpointOwner && ep !in s.prov.endpointOwner
    case WorkerSessionBound(w, session) =>
      && session in t.sessions && t.sessions[session].worker.None? && w !in t.active
      && session !in s.sup.designated
    case WorkerSessionMoved(w, old_, new_) =>
      && old_ != new_ && w in t.active && t.active[w] == old_
      && old_ in t.sessions && t.sessions[old_].worker.Some? && t.sessions[old_].worker.value.id == w
      && new_ in t.sessions && t.sessions[new_].worker.None? && new_ !in s.sup.designated
  }

  predicate AcceptsProviders(s: State, e: ProviderEvent) {
    match e
    case ProviderRegistered(p, name) => p !in s.prov.table
    case ProviderEndpointBound(p, ep) =>
      && p in s.prov.table && s.prov.table[p].endpoint.None?
      && ep !in s.prov.endpointOwner && ep !in s.top.endpointOwner && !InRouteHistory(s, ep)
  }

  predicate AcceptsRoutes(s: State, e: RouteEvent) {
    match e
    case RouteProposed(request, policy) => request.id !in s.routes
    case RouteDecided(r, decision) => r in s.routes && Decide(s.routes[r].gate, decision).Some?
    case RouteDispatched(r, grant) =>
      && r in s.routes && s.routes[r].dispatched.None? && AuthorizeDispatch(s.routes[r].gate) == Some(grant)
      && (s.routes[r].request.category.OrchestrationControl? ==> CarriesFreshControl(s, r))
  }

  predicate AcceptsMail(s: State, e: MailEvent) {
    match e
    case PayloadAttached(p, r, sender, receiver, text) =>
      && !Blank(text) && sender != receiver && r !in s.mail.payloads && p !in s.mail.payloadOwner
      && r in s.routes && s.routes[r].request.category.SessionMessage? && !s.routes[r].gate.Dispatched?
      && EndsAt(s, r, sender, receiver)
    case RouteDelivered(r, p, sender, receiver, from, to, dispatch) =>
      && r !in s.mail.deliveries && sender != receiver && from != to
      && r in s.routes && s.routes[r].dispatched == Some(dispatch)
      && r in s.mail.payloads && s.mail.payloads[r].id == p
      && s.mail.payloads[r].sender == sender && s.mail.payloads[r].receiver == receiver
      && EndsAt(s, r, sender, receiver)
      && Resolve(s.top, s.routes[r].request.source).value.session == from
      && Resolve(s.top, s.routes[r].request.destination).value.session == to
  }

  predicate AcceptsTools(s: State, e: ToolEvent) {
    match e
    case ToolCallRecorded(c, session, p, operation, arguments) =>
      c !in s.tools.calls && session in s.top.sessions && p in s.prov.table
    case ToolCallRouteBound(c, r) =>
      && c in s.tools.calls && s.tools.calls[c].route.None? && r !in s.tools.routeOwner && r in s.routes
      && s.tools.calls[c].recorded < s.routes[r].proposed && s.routes[r].request.category.ToolCall?
      && !s.routes[r].policy.DenyByPolicy? && s.routes[r].gate == InitialGate(s.routes[r].policy)
      && s.routes[r].decision.None? && s.routes[r].dispatched.None?
      && CallOwnsEnds(s, s.tools.calls[c], s.routes[r])
    case ToolOutcome(c, r, kind, text) =>
      && ByteLength(text) <= MAX_OUTCOME_BYTES && (kind.Error? ==> !Blank(text))
      && c !in s.tools.outcomes && r !in s.tools.outcomeOwner
      && c in s.tools.calls && s.tools.calls[c].route.Some? && s.tools.calls[c].route.value.id == r
      && r in s.routes && s.routes[r].request.category.ToolCall?
      && ExpectedAuthority(s.routes[r].policy).Some?
      && s.routes[r].gate == Dispatched(ExpectedAuthority(s.routes[r].policy).value)
      && s.routes[r].dispatched.Some?
      && s.tools.calls[c].recorded < s.tools.calls[c].route.value.at < s.routes[r].dispatched.value
    case ResultDecided(c, r, observed, v, verdict) =>
      && c in s.tools.outcomes && s.tools.outcomes[c].route == r && s.tools.outcomes[c].observed == observed
      && s.tools.outcomes[c].owner == Some(v) && ByteLength(s.tools.outcomes[c].text) <= MAX_CONTEXT_BYTES
      && (c in s.tools.admissions ==>
            s.tools.admissions[c].conversation == v && s.tools.admissions[c].route == r
            && s.tools.admissions[c].observed == observed)
  }

  predicate AcceptsMemory(s: State, e: MemoryEvent) {
    match e
    case MemoryRecorded(m, v, text) => !Blank(text) && m !in s.mem.artifacts
    case MemoryDecided(m, v, verdict) => m in s.mem.artifacts
    case MemorySuperseded(older, newer) =>
      && older != newer && older !in s.mem.successor && newer !in s.mem.predecessor
      && older in s.mem.artifacts && newer in s.mem.artifacts
      && s.mem.artifacts[older].conversation == s.mem.artifacts[newer].conversation
      && s.mem.artifacts[older].at < s.mem.artifacts[newer].at
  }

  predicate AcceptsWorkers(s: State, e: StaffEvent) {
    match e
    case WorkerBound(v, w) => v !in s.staff.bindings && w !in s.staff.owner
    case GoalAssigned(w, goal) => AssignGoal(LifecycleOf(s, w), goal).Some?
    case Transition(w, goal, action, cause) =>
      && w in s.staff.lives && Act(s.staff.lives[w].lifecycle, goal, action).Some?
      && (cause.Some? ==> CausedBy(s, w, goal, action, cause.value))
  }

  predicate AcceptsSupervision(s: State, e: SupervisionEvent) {
    match e
    case ControllerDesignated(session) =>
      session in s.top.sessions && s.top.sessions[session].worker.None? && session !in s.sup.designated
    case ControllerWorkerBound(controller, session) =>
      && controller != session && controller in s.top.sessions && session in s.top.sessions
      && s.top.sessions[controller].worker.None? && controller in s.sup.designated
      && session !in s.sup.designated && s.top.sessions[session].worker.Some? && session !in s.sup.supervisor
  }

  predicate AcceptsMandate(s: State, e: MandateEvent) {
    match e
    case LeaseCreated(l, w, goal, allowance) =>
      && l !in s.auth.leases && w in s.staff.lives && s.staff.lives[w].lifecycle.goal == Some(goal)
      && !s.staff.lives[w].lifecycle.phase.Terminal()
    case PermitIssued(l, w, goal, ordinal) =>
      && l in s.auth.leases && s.auth.leases[l].worker == w && s.auth.leases[l].goal == goal
      && w in s.staff.lives && MayIssue(s.auth.leases[l], s.staff.lives[w].lifecycle)
      && ordinal == s.auth.leases[l].Issued() + 1
    case ControlAdmitted(c, w, goal, order, permit) =>
      && c !in s.auth.controls && Fresh(s, Control(w, goal, order, permit, 0))
      && (if order.Continue? then permit.Some? && permit.value.ordinal == order.ordinal && Consumable(s, w, goal, permit.value)
          else permit.None?)
  }

  predicate AcceptsCarriage(s: State, e: CarriageEvent) {
    match e
    case IssuerBound(c, session) =>
      && c in s.auth.controls && c !in s.car.issuers && session in s.top.sessions && session in s.sup.designated
      && s.top.sessions[session].worker.None? && SupervisesWorker(s, session, s.auth.controls[c].worker)
    case ControlRouteBound(c, r) =>
      && c in s.auth.controls && r in s.routes && s.routes[r].request.category.OrchestrationControl?
      && c !in s.car.routeOf && r !in s.car.controlOf && Fresh(s, s.auth.controls[c]) && c in s.car.issuers
      && SupervisesWorker(s, s.car.issuers[c].id, s.auth.controls[c].worker)
      && ControlOwnsEnds(s, s.car.issuers[c].id, s.auth.controls[c].worker, s.routes[r])
    case ControlDelivered(c, r, w, v, session, controller, dispatch) =>
      && r !in s.car.deliveries && c !in s.car.deliveredOn
      && r in s.routes && s.routes[r].dispatched == Some(dispatch) && s.routes[r].request.category.OrchestrationControl?
      && r in s.car.controlOf && s.car.controlOf[r] == c && c in s.auth.controls && s.auth.controls[c].worker == w
      && c in s.car.issuers && s.car.issuers[c].id == controller
      && c in s.car.routeOf && s.car.routeOf[c].session == session
      && w in s.staff.owner && s.staff.owner[w] == v
    case ControlAcked(c, r, w, v, delivered) =>
      && r !in s.car.acks && c !in s.car.ackedOn && r in s.car.deliveries
      && var d := s.car.deliveries[r]; d.control == c && d.worker == w && d.conversation == v && d.at == delivered
  }

  predicate AcceptsWork(s: State, e: WorkEvent) {
    match e
    case ActionStarted(c, r, w, v, goal, order, acked, phase) =>
      && r !in s.work.actions && c !in s.work.actionOf && ActionOf(order).Some?
      && Acknowledged(s, r, c, w, v, acked) && s.auth.controls[c].goal == goal && s.auth.controls[c].order == order
      && w in s.staff.lives && Admission(s.staff.lives[w].lifecycle, goal, order) == Some(phase)
    case ActionResult(c, r, w, v, goal, order, started, transition, phase) =>
      && r in s.work.actions && s.work.actions[r].result.None?
      && var a := s.work.actions[r];
      && a.control == c && a.worker == w && a.conversation == v && a.goal == goal && a.order == order
      && a.started == started && a.transition == Some(transition) && a.resulting == Some(phase)
    case ExecutionStarted(c, r, w, v, goal, l, ordinal, acked, turn) =>
      && r !in s.work.executions && c !in s.work.executionOf && turn !in s.work.turns
      && Acknowledged(s, r, c, w, v, acked) && s.auth.controls[c].goal == goal
      && s.auth.controls[c].order == Continue(ordinal) && s.auth.controls[c].permit == Some(PermitRef(l, ordinal))
      && l in s.auth.leases && s.auth.leases[l].worker == w && s.auth.leases[l].goal == goal
      && 1 <= ordinal <= |s.auth.leases[l].permits|
      && s.auth.leases[l].permits[ordinal - 1].consumed.Some?
      && s.auth.leases[l].permits[ordinal - 1].consumed.value.id == c
      && w in s.staff.lives && s.staff.lives[w].lifecycle == Lifecycle(Some(goal), Working)
  }

  /** No audit rejects the event. */
  predicate Accepts(s: State, e: Event) {
    match e
    case Top(x) => AcceptsTopology(s, x)
    case Prov(x) => AcceptsProviders(s, x)
    case Routing(x) => AcceptsRoutes(s, x)
    case Post(x) => AcceptsMail(s, x)
    case Tool(x) => AcceptsTools(s, x)
    case Recall(x) => AcceptsMemory(s, x)
    case Staff(x) => AcceptsWorkers(s, x)
    case Oversight(x) => AcceptsSupervision(s, x)
    case Grant(x) => AcceptsMandate(s, x)
    case Carry(x) => AcceptsCarriage(s, x)
    case Doing(x) => AcceptsWork(s, x)
  }

  predicate InRouteHistory(s: State, endpoint: int) {
    exists r | r in s.routes :: s.routes[r].request.source == endpoint || s.routes[r].request.destination == endpoint
  }

  /** Both ends of the route are current leaves of these conversations and take ordinary turns. */
  predicate EndsAt(s: State, r: int, sender: int, receiver: int)
    requires r in s.routes
  {
    var from := Resolve(s.top, s.routes[r].request.source);
    var to := Resolve(s.top, s.routes[r].request.destination);
    && from.Some? && to.Some? && from.value.conversation == sender && to.value.conversation == receiver
    && from.value.phase.AcceptsOrdinaryTurns() && to.value.phase.AcceptsOrdinaryTurns()
  }

  predicate CallOwnsEnds(s: State, call: Call, route: Route) {
    && call.session in s.top.sessions && call.provider in s.prov.table
    && var from, to := s.top.sessions[call.session].endpoint, s.prov.table[call.provider].endpoint;
    && from.Some? && from.value.id == route.request.source && from.value.at < route.proposed
    && to.Some? && to.value.id == route.request.destination && to.value.at < route.proposed
  }

  predicate CarriesFreshControl(s: State, r: int) {
    && r in s.car.controlOf && s.car.controlOf[r] in s.auth.controls
    && Fresh(s, s.auth.controls[s.car.controlOf[r]])
  }

  function LifecycleOf(s: State, w: int): Lifecycle {
    if w in s.staff.lives then s.staff.lives[w].lifecycle else FRESH_LIFECYCLE
  }

  predicate CausedBy(s: State, w: int, goal: int, action: WorkerAction, cause: Cause)
    requires w in s.staff.lives && Act(s.staff.lives[w].lifecycle, goal, action).Some?
  {
    && cause.route in s.work.actions
    && var a := s.work.actions[cause.route];
    && a.control == cause.control && a.started == cause.started && a.worker == w && a.goal == goal
    && ActionOf(a.order) == Some(action) && a.transition.None?
    && ResultingPhase(a.order) == Some(Act(s.staff.lives[w].lifecycle, goal, action).value.phase)
  }

  predicate Consumable(s: State, w: int, goal: int, permit: PermitRef) {
    && permit.lease in s.auth.leases
    && s.auth.leases[permit.lease].worker == w && s.auth.leases[permit.lease].goal == goal
    && Unconsumed(s.auth.leases[permit.lease], permit.ordinal)
  }

  /** The worker's active session is supervised by `controller`. */
  predicate SupervisesWorker(s: State, controller: int, w: int) {
    w in s.top.active && s.top.active[w] in s.sup.supervisor && s.sup.supervisor[s.top.active[w]].id == controller
  }

  predicate ControlOwnsEnds(s: State, controller: int, w: int, route: Route) {
    && controller in s.top.sessions && w in s.top.active && s.top.active[w] in s.top.sessions
    && var from, to := s.top.sessions[controller].endpoint, s.top.sessions[s.top.active[w]].endpoint;
    && from.Some? && from.value.id == route.request.source
    && to.Some? && to.value.id == route.request.destination
  }

  /** The worker inbox of `v` holds control `c` on route `r`, acknowledged at `acked`. */
  predicate Acknowledged(s: State, r: int, c: int, w: int, v: int, acked: int) {
    && r in s.car.deliveries && s.car.deliveries[r].control == c && s.car.deliveries[r].worker == w
    && s.car.deliveries[r].conversation == v && c in s.auth.controls && s.auth.controls[c].worker == w
    && r in s.car.acks && s.car.acks[r].at == acked
  }

  // ---- The audits' updates, one total function per audit group

  function ApplyTop(t: Topology, e: TopEvent, at: int): Topology {
    match e
    case SessionRegistered(session) => t.(sessions := t.sessions[session := Session(at, None, None)])
    case ContainerCreated(c, root) =>
      t.(containers := t.containers[c := Container(root, map[root := Member(Healthy, None, None)])],
         home := t.home[root := c])
    case ConversationBound(v, c) => t.(bindings := t.bindings[v := c], tenant := t.tenant[c := v])
    case PhaseChanged(c, session, before, after) =>
      if c in t.containers && session in t.containers[c].members then
        var box := t.containers[c];
        t.(containers := t.containers[c := box.(members := box.members[session := box.members[session].(phase := after)])])
      else t
    case SuccessorJoined(c, old_, new_, handoff) =>
      if c in t.containers && old_ in t.containers[c].members then
        var box := t.containers[c];
        var retired := box.members[old_].(phase := Retired, successor := Some(new_));
        t.(containers := t.containers[c :=
             Container(new_, box.members[old_ := retired][new_ := Member(Healthy, Some(old_), None)])],
           home := t.home[new_ := c], handoffs := t.handoffs + {handoff})
      else t
    case SessionEndpointBound(session, ep) =>
      if session in t.sessions then
        t.(sessions := t.sessions[session := t.sessions[session].(endpoint := Some(Stamped(ep, at)))],
           endpointOwner := t.endpointOwner[ep := session])
      else t
    case WorkerSessionBound(w, session) => BindWorker(t, w, session, at)
    case WorkerSessionMoved(w, old_, new_) => BindWorker(t, w, new_, at)
  }

  function BindWorker(t: Topology, w: int, session: int, at: int): Topology {
    if session in t.sessions then
      t.(sessions := t.sessions[session := t.sessions[session].(worker := Some(Stamped(w, at)))],
         active := t.active[w := session])
    else t
  }

  function ApplyProviders(p: Providers, e: ProviderEvent, at: int): Providers {
    match e
    case ProviderRegistered(id, name) => p.(table := p.table[id := Provider(name, at, None)])
    case ProviderEndpointBound(id, ep) =>
      if id in p.table then
        Providers(p.table[id := p.table[id].(endpoint := Some(Stamped(ep, at)))], p.endpointOwner[ep := id])
      else p
  }

  function ApplyRoutes(routes: map<int, Route>, e: RouteEvent, at: int): map<int, Route> {
    match e
    case RouteProposed(request, policy) =>
      routes[request.id := Route(request, policy, InitialGate(policy), None, at, None)]
    case RouteDecided(r, decision) =>
      if r in routes && Decide(routes[r].gate, decision).Some? then
        routes[r := routes[r].(gate := Decide(routes[r].gate, decision).value, decision := Some(decision))]
      else routes
    case RouteDispatched(r, grant) =>
      if r in routes then routes[r := routes[r].(gate := Dispatched(grant), dispatched := Some(at))] else routes
  }

  function ApplyMail(m: Mail, e: MailEvent, at: int): Mail {
    match e
    case PayloadAttached(p, r, sender, receiver, text) =>
      m.(payloads := m.payloads[r := Payload(p, sender, receiver, text, at)],
         payloadOwner := m.payloadOwner[p := r])
    case RouteDelivered(r, p, sender, receiver, from, to, dispatch) =>
      m.(deliveries := m.deliveries[r := Delivery(p, sender, receiver, from, to, dispatch, at)])
  }

  function ApplyTools(k: Tools, t: Topology, routes: map<int, Route>, e: ToolEvent, at: int): Tools {
    match e
    case ToolCallRecorded(c, session, p, operation, arguments) =>
      k.(calls := k.calls[c := Call(session, p, operation, arguments, at, None)])
    case ToolCallRouteBound(c, r) =>
      if c in k.calls then
        k.(calls := k.calls[c := k.calls[c].(route := Some(Stamped(r, at)))], routeOwner := k.routeOwner[r := c])
      else k
    case ToolOutcome(c, r, kind, text) =>
      if c in k.calls && k.calls[c].route.Some? && r in routes && routes[r].dispatched.Some? then
        var call := k.calls[c];
        k.(outcomes := k.outcomes[c := Outcome(r, call.provider, call.session, kind, text,
                                               call.recorded, call.route.value.at, routes[r].dispatched.value, at,
                                               ConversationOf(t, call.session))],
           outcomeOwner := k.outcomeOwner[r := c])
      else k
    case ResultDecided(c, r, observed, v, verdict) =>
      if c in k.admissions then
        k.(admissions := k.admissions[c := k.admissions[c].(verdict := verdict, last := at)])
      else if c in k.outcomes then
        var o := k.outcomes[c];
        k.(admissions := k.admissions[c := Evidence(r, o.provider, o.session, v, observed, o.kind, verdict, at, at)])
      else k
  }

  function ApplyMemory(m: Memory, e: MemoryEvent, at: int): Memory {
    match e
    case MemoryRecorded(id, v, text) => m.(artifacts := m.artifacts[id := Artifact(v, text, at)])
    case MemoryDecided(id, v, verdict) => m.(verdicts := m.verdicts[(id, v) := verdict])
    case MemorySuperseded(older, newer) =>
      m.(successor := m.successor[older := Stamped(newer, at)], predecessor := m.predecessor[newer := older])
  }

  function ApplyWorkers(w: Workers, e: StaffEvent, at: int): Workers {
    match e
    case WorkerBound(v, id) => w.(bindings := w.bindings[v := id], owner := w.owner[id := v])
    case GoalAssigned(id, goal) => w.(lives := w.lives[id := Life(Lifecycle(Some(goal), Ready), at)])
    case Transition(id, goal, action, cause) =>
      if id in w.lives && Act(w.lives[id].lifecycle, goal, action).Some? then
        w.(lives := w.lives[id := Life(Act(w.lives[id].lifecycle, goal, action).value, at)])
      else w
  }

  function ApplySupervision(u: Supervision, e: SupervisionEvent, at: int): Supervision {
    match e
    case ControllerDesignated(session) => u.(designated := u.designated[session := at])
    case ControllerWorkerBound(controller, session) =>
      u.(supervisor := u.supervisor[session := Stamped(controller, at)])
  }

  function ApplyMandate(a: Mandate, e: MandateEvent, at: int): Mandate {
    match e
    case LeaseCreated(l, w, goal, allowance) => a.(leases := a.leases[l := Lease(w, goal, allowance, at, [])])
    case PermitIssued(l, w, goal, ordinal) =>
      if l in a.leases then
        a.(leases := a.leases[l := a.leases[l].(permits := a.leases[l].permits + [Permit(at, None)])])
      else a
    case ControlAdmitted(c, w, goal, order, permit) =>
      var b := a.(controls := a.controls[c := Control(w, goal, order, permit, at)]);
      if permit.Some? && permit.value.lease in a.leases
         && 1 <= permit.value.ordinal <= |a.leases[permit.value.lease].permits| then
        b.(leases := a.leases[permit.value.lease := Consume(a.leases[permit.value.lease], permit.value.ordinal, c, at)])
      else b
  }

  function Consume(lease: Lease, ordinal: int, control: int, at: int): Lease
    requires 1 <= ordinal <= |lease.permits|
  {
    lease.(permits := lease.permits[ordinal - 1 := lease.permits[ordinal - 1].(consumed := Some(Stamped(control, at)))])
  }

  function ApplyCarriage(k: Carriage, active: map<int, int>, auth: Mandate, e: CarriageEvent, at: int): Carriage {
    match e
    case IssuerBound(c, session) => k.(issuers := k.issuers[c := Stamped(session, at)])
    case ControlRouteBound(c, r) =>
      if c in auth.controls && auth.controls[c].worker in active then
        k.(routeOf := k.routeOf[c := Carried(r, active[auth.controls[c].worker], at)], controlOf := k.controlOf[r := c])
      else k
    case ControlDelivered(c, r, w, v, session, controller, dispatch) =>
      k.(deliveries := k.deliveries[r := ControlDelivery(c, w, v, session, controller, dispatch, at)],
         deliveredOn := k.deliveredOn[c := r])
    case ControlAcked(c, r, w, v, delivered) =>
      k.(acks := k.acks[r := Stamped(c, at)], ackedOn := k.ackedOn[c := r])
  }

  function ApplyWork(k: Work, e: WorkEvent, at: int): Work {
    match e
    case ActionStarted(c, r, w, v, goal, order, acked, phase) =>
      k.(actions := k.actions[r := Action(c, w, v, goal, order, acked, phase, at, None, None, None)],
         actionOf := k.actionOf[c := r])
    case ActionResult(c, r, w, v, goal, order, started, transition, phase) =>
      if r in k.actions then k.(actions := k.actions[r := k.actions[r].(result := Some(at))]) else k
    case ExecutionStarted(c, r, w, v, goal, l, ordinal, acked, turn) =>
      k.(executions := k.executions[r := Execution(c, w, v, goal, l, ordinal, acked, turn, at)],
         executionOf := k.executionOf[c := r], turns := k.turns + {turn})
  }

  /** A lifecycle transition caused by a control completes that control's action record. */
  function MarkTransition(k: Work, staff: Workers, e: StaffEvent, at: int): Work {
    if e.Transition? && e.cause.Some? && e.cause.value.route in k.actions && e.worker in staff.lives
       && Act(staff.lives[e.worker].lifecycle, e.goal, e.action).Some? then
      var r := e.cause.value.route;
      var phase := Act(staff.lives[e.worker].lifecycle, e.goal, e.action).value.phase;
      k.(actions := k.actions[r := k.actions[r].(transition := Some(at), resulting := Some(phase))])
    else k
  }

  function Apply(s: State, e: Event): State {
    var at := s.count + 1;
    match e
    case Top(x) => s.(count := at, top := ApplyTop(s.top, x, at))
    case Prov(x) => s.(count := at, prov := ApplyProviders(s.prov, x, at))
    case Routing(x) => s.(count := at, routes := ApplyRoutes(s.routes, x, at))
    case Post(x) => s.(count := at, mail := ApplyMail(s.mail, x, at))
    case Tool(x) => s.(count := at, tools := ApplyTools(s.tools, s.top, s.routes, x, at))
    case Recall(x) => s.(count := at, mem := ApplyMemory(s.mem, x, at))
    case Staff(x) => s.(count := at, staff := ApplyWorkers(s.staff, x, at),
                        work := MarkTransition(s.work, s.staff, x, at))
    case Oversight(x) => s.(count := at, sup := ApplySupervision(s.sup, x, at))
    case Grant(x) => s.(count := at, auth := ApplyMandate(s.auth, x, at))
    case Carry(x) => s.(count := at, car := ApplyCarriage(s.car, s.top.active, s.auth, x, at))
    case Doing(x) => s.(count := at, work := ApplyWork(s.work, x, at))
  }

  /** Replays a whole journal; `None` when any audit rejects any event. */
  function Replay(j: Journal): (r: Option<State>)
    ensures r.Some? ==> r.value.count == |j|
  {
    if j == [] then Some(EMPTY)
    else
      var before := Replay(j[..|j| - 1]);
      if before.Some? && Accepts(before.value, j[|j| - 1]) then Some(Apply(before.value, j[|j| - 1])) else None
  }
}
