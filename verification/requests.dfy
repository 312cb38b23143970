/** What a command asks for is what the journal then says.

    `Plan` is not mentioned in `Honours`: it relates the state before a command to the state replayed after
    it, in terms of the request alone, and says what did not change. */
module Requests {
  import opened Common
  import opened Events
  import opened Core
  import opened Replaying
  import opened Writer
  import opened Invariant
  import opened Safety
  import opened Log
  import opened Runs
  import opened Index
  import opened Uninterrupted

  /** Conversations, containers, sessions and providers. */
  ghost predicate HonoursTopology(s: State, t: State, c: Command) {
    match c
    case BindTopology(v, box, session) =>
      && t == s.(count := s.count + 3, top := t.top)
      && SeatOf(t.top, v) == Some(Seat(v, box, session, Healthy)) && ConversationOf(t.top, session) == Some(v)
    case BindEndpoint(v, session, ep) =>
      && t == s.(count := s.count + 1, top := t.top) && SeatOf(t.top, v) == SeatOf(s.top, v)
      && EntryOf(t.top, v).Some? && EntryOf(t.top, v).value.session == session && EntryOf(t.top, v).value.endpoint == ep
      && Resolve(t.top, ep) == EntryOf(t.top, v)
    case RegisterProvider(p, name) =>
      t == s.(count := s.count + 1, prov := s.prov.(table := s.prov.table[p := Provider(name, t.count, None)]))
    case BindProvider(p, ep) =>
      && p in s.prov.table && s.prov.table[p].endpoint.None?
      && t == s.(count := s.count + 1,
                 prov := Providers(s.prov.table[p := s.prov.table[p].(endpoint := Some(Stamped(ep, t.count)))],
                                   s.prov.endpointOwner[ep := p]))
    case RegisterSession(session) =>
      && t == s.(count := s.count + 1, top := t.top) && session !in s.top.sessions
      && t.top == s.top.(sessions := s.top.sessions[session := Session(t.count, None, None)])
    case SetPhase(box, session, after) =>
      && t == s.(count := s.count + 1, top := t.top)
      && box in t.top.containers && t.top.containers[box].current == session && session in t.top.containers[box].members
      && t.top.containers[box].members[session].phase == after
      && t.top == s.top.(containers := s.top.containers[box := t.top.containers[box]])
    case JoinSuccessor(box, new_, handoff) =>
      && t == s.(count := s.count + 1, top := t.top) && handoff in t.top.handoffs
      && box in s.top.containers && box in t.top.containers && t.top.containers[box].current == new_
      && var old_ := s.top.containers[box].current;
      && new_ in t.top.containers[box].members && t.top.containers[box].members[new_] == Member(Healthy, Some(old_), None)
      && old_ in t.top.containers[box].members && t.top.containers[box].members[old_].phase.Retired?
      && t.top.containers[box].members[old_].successor == Some(new_)
      && new_ in t.top.home && t.top.home[new_] == box
    case _ => true
  }

  /** The user's word is recorded as given, and it alone fixes the gate. */
  ghost predicate Decided(s: State, t: State, r: int, d: RouteDecision) {
    && r in s.routes
    && t == s.(count := s.count + 1,
               routes := s.routes[r := s.routes[r].(decision := Some(d),
                                                    gate := if d.Allow? then Allowed(User) else Denied(User))])
  }

  /** Session messages. */
  ghost predicate HonoursMail(s: State, t: State, c: Command) {
    match c
    case ProposeMessage(r, a, b) =>
      && r !in s.routes && r in t.routes && t == s.(count := s.count + 1, routes := s.routes[r := t.routes[r]])
      && EntryOf(t.top, a).Some? && EntryOf(t.top, b).Some?
      && t.routes[r] == Route(RouteRequest(r, EntryOf(t.top, a).value.endpoint, EntryOf(t.top, b).value.endpoint, SessionMessage),
                              RequireApproval, Pending, None, t.count, None)
      && Resolve(t.top, t.routes[r].request.source) == EntryOf(t.top, a)
      && Resolve(t.top, t.routes[r].request.destination) == EntryOf(t.top, b)
    case AttachPayload(p, r, text) =>
      && BothEndsLive(s, r)
      && t == s.(count := s.count + 1,
                 mail := s.mail.(payloads := s.mail.payloads[r := Payload(p, Sender(s, r), Receiver(s, r), text, t.count)],
                                 payloadOwner := s.mail.payloadOwner[p := r]))
    case DecideMessage(r, d) => Decided(s, t, r, d)
    case DeliverMessage(r) =>
      && r in s.mail.payloads && r in t.mail.deliveries && r in s.routes && r in t.routes
      && t == s.(count := t.count, routes := s.routes[r := t.routes[r]],
                 mail := s.mail.(deliveries := s.mail.deliveries[r := t.mail.deliveries[r]]))
      && var d, p := t.mail.deliveries[r], s.mail.payloads[r];
      && d.payload == p.id && d.sender == p.sender && d.receiver == p.receiver && d.at == t.count
      && EntryOf(t.top, d.sender).Some? && EntryOf(t.top, d.sender).value.session == d.senderSession
      && EntryOf(t.top, d.receiver).Some? && EntryOf(t.top, d.receiver).value.session == d.receiverSession
      && t.routes[r] == s.routes[r].(gate := Dispatched(User), dispatched := Some(d.dispatch)) && d.dispatch < d.at
      && (s.routes[r].dispatched.Some? ==> t.routes == s.routes && t.count == s.count + 1)
      && (s.routes[r].dispatched.None? ==> t.count == s.count + 2 && d.dispatch == s.count + 1)
    case _ => true
  }

  /** Tool calls and their results. */
  ghost predicate HonoursTools(s: State, t: State, c: Command) {
    match c
    case ProposeCall(id, r, v, p, operation, arguments, policy, wellFormed) =>
      && r !in s.routes && r in t.routes && id !in s.tools.calls && EntryOf(s.top, v).Some? && p in s.prov.table
      && s.prov.table[p].endpoint.Some?
      && t == s.(count := s.count + 3, routes := s.routes[r := t.routes[r]], tools := t.tools)
      && t.tools == s.tools.(calls := s.tools.calls[id := Call(EntryOf(s.top, v).value.session, p, operation, arguments,
                                                               s.count + 1, Some(Stamped(r, s.count + 3)))],
                             routeOwner := s.tools.routeOwner[r := id])
      && t.routes[r] == Route(RouteRequest(r, EntryOf(s.top, v).value.endpoint, s.prov.table[p].endpoint.value.id, ToolCall),
                              policy, if policy.AllowByPolicy? then Allowed(Policy) else Pending, None, s.count + 2, None)
    case DecideCall(r, d) => Decided(s, t, r, d)
    case Execute(x, r, ready, text) =>
      && r in s.routes && r in s.tools.routeOwner && s.routes[r].dispatched.None?
      && var grant := if s.routes[r].policy.RequireApproval? then User else Policy;
      && t == s.(count := t.count, tools := t.tools,
                 routes := s.routes[r := s.routes[r].(gate := Dispatched(grant), dispatched := Some(s.count + 1))])
      && var id := s.tools.routeOwner[r];
      && if x.Builtin? && ByteLength(text) <= MAX_OUTCOME_BYTES then
           && t.count == s.count + 2 && id in t.tools.outcomes && t.tools.outcomes[id].text == text
           && t.tools.outcomes[id].route == r && t.tools.outcomes[id].kind == OutcomeKind.Result
           && t.tools.outcomes[id].dispatch == s.count + 1 && t.tools.outcomes[id].observed == t.count
           && t.tools.calls == s.tools.calls
         else t.count == s.count + 1 && t.tools == s.tools
    case RecordOutcome(id, r, kind, text) =>
      && t == s.(count := s.count + 1, tools := t.tools) && t.tools.calls == s.tools.calls
      && id !in s.tools.outcomes && id in t.tools.outcomes
      && t.tools.outcomes[id].route == r && t.tools.outcomes[id].kind == kind && t.tools.outcomes[id].text == text
      && t.tools.outcomes[id].observed == t.count
      && t.tools.outcomes == s.tools.outcomes[id := t.tools.outcomes[id]]
    case DecideResult(id, v, verdict) =>
      && t == s.(count := s.count + 1, tools := s.tools.(admissions := t.tools.admissions))
      && id in s.tools.outcomes && id in t.tools.admissions
      && t.tools.admissions == s.tools.admissions[id := t.tools.admissions[id]]
      && var a, o := t.tools.admissions[id], s.tools.outcomes[id];
      && a.verdict == verdict && a.conversation == v && a.last == t.count
      && a.route == o.route && a.provider == o.provider && a.session == o.session && a.observed == o.observed && a.kind == o.kind
    case _ => true
  }

  /** Local memories. */
  ghost predicate HonoursMemory(s: State, t: State, c: Command) {
    match c
    case RecordMemory(m, v, text) =>
      && m !in s.mem.artifacts
      && t == s.(count := s.count + 1, mem := s.mem.(artifacts := s.mem.artifacts[m := Artifact(v, text, t.count)]))
    case DecideMemory(m, v, verdict) =>
      t == s.(count := s.count + 1, mem := s.mem.(verdicts := s.mem.verdicts[(m, v) := verdict]))
    case SupersedeMemory(older, newer) =>
      t == s.(count := s.count + 1, mem := s.mem.(successor := s.mem.successor[older := Stamped(newer, t.count)],
                                                  predecessor := s.mem.predecessor[newer := older]))
    case _ => true
  }

  /** The phase a worker stands in after a lifecycle action. */
  function Reached(action: WorkerAction): WorkerPhase {
    match action
    case StartOrResume => Working
    case ReportProgress => Working
    case RequestInput => NeedsInput
    case MarkBlocked => Blocked
    case Complete => Completed
    case Fail => Failed
    case Stop => Stopped
  }

  /** Workers, supervision and leases. */
  ghost predicate HonoursStaff(s: State, t: State, c: Command) {
    match c
    case BindWorkerId(v, w) =>
      t == s.(count := s.count + 1, staff := s.staff.(bindings := s.staff.bindings[v := w], owner := s.staff.owner[w := v]))
    case BindWorkerSession(v, w) =>
      && t == s.(count := s.count + 1, top := t.top) && SeatOf(s.top, v).Some? && SeatOf(t.top, v) == SeatOf(s.top, v)
      && var session := SeatOf(s.top, v).value.session;
      && session in s.top.sessions && s.top.sessions[session].worker.None?
      && t.top == s.top.(active := s.top.active[w := session],
                         sessions := s.top.sessions[session := s.top.sessions[session].(worker := Some(Stamped(w, t.count)))])
    case DesignateController(v) =>
      && SeatOf(s.top, v).Some?
      && t == s.(count := s.count + 1,
                 sup := s.sup.(designated := s.sup.designated[SeatOf(s.top, v).value.session := t.count]))
    case Supervise(cv, wv) =>
      && SeatOf(s.top, cv).Some? && SeatOf(s.top, wv).Some?
      && t == s.(count := s.count + 1,
                 sup := s.sup.(supervisor := s.sup.supervisor[SeatOf(s.top, wv).value.session :=
                                                                Stamped(SeatOf(s.top, cv).value.session, t.count)]))
    case AssignWorkerGoal(w, goal) =>
      t == s.(count := s.count + 1,
              staff := s.staff.(lives := s.staff.lives[w := Life(Lifecycle(Some(goal), Ready), t.count)]))
    case MoveWorker(w, goal, action) =>
      t == s.(count := s.count + 1,
              staff := s.staff.(lives := s.staff.lives[w := Life(Lifecycle(Some(goal), Reached(action)), t.count)]))
    case GrantLease(cv, wv, l, allowance) =>
      && wv in s.staff.bindings && s.staff.bindings[wv] in s.staff.lives && l in t.auth.leases && l !in s.auth.leases
      && t == s.(count := s.count + 1, auth := s.auth.(leases := s.auth.leases[l := t.auth.leases[l]]))
      && t.auth.leases[l].worker == s.staff.bindings[wv] && t.auth.leases[l].created == t.count
      && s.staff.lives[s.staff.bindings[wv]].lifecycle.goal == Some(t.auth.leases[l].goal)
      && t.auth.leases[l].allowance == allowance && t.auth.leases[l].Remaining() == allowance && t.auth.leases[l].Issued() == 0
    case _ => true
  }

  /** The order a control carries is the one asked for. A Continue carries the open permit if there is one,
      and otherwise the next one of the live lease. */
  ghost predicate CarriesOrder(a: Mandate, open: set<PermitRef>, live: set<int>, ask: ControlAction, control: Control) {
    match ask
    case AskStart => control.order == Start && control.permit.None?
    case AskStop => control.order == Halt && control.permit.None?
    case AskStatus => control.order == Status && control.permit.None?
    case AskContinue =>
      && control.permit.Some? && control.order == Continue(control.permit.value.ordinal)
      && var permit := control.permit.value;
      if open != {} then permit in open
      else permit.lease in live && permit.lease in a.leases && permit.ordinal == a.leases[permit.lease].Issued() + 1
  }

  /** Everything a control proposal records, for the worker and goal it concerns. */
  ghost predicate ControlRecorded(s: State, t: State, cv: int, wv: int, id: int, r: int, ask: ControlAction) {
    && id !in s.auth.controls && id in t.auth.controls && wv in s.staff.bindings && s.staff.bindings[wv] in s.staff.lives
    && SeatOf(s.top, cv).Some? && EntryOf(s.top, cv).Some? && EntryOf(s.top, wv).Some? && s.staff.bindings[wv] in s.top.active
    && var w, control := s.staff.bindings[wv], t.auth.controls[id];
    && control.worker == w && s.staff.lives[w].lifecycle.goal == Some(control.goal)
    && CarriesOrder(s.auth, OpenPermits(s, w, control.goal), LiveLeases(s, w, control.goal), ask, control)
    && (control.permit.Some? ==>
          && control.permit.value.lease in t.auth.leases
          && 1 <= control.permit.value.ordinal <= |t.auth.leases[control.permit.value.lease].permits|
          && t.auth.leases[control.permit.value.lease].permits[control.permit.value.ordinal - 1].consumed
             == Some(Stamped(id, control.at)))
    && (control.permit.None? ==> t.auth.leases == s.auth.leases)
    && r !in s.routes && r in t.routes
    && t.routes[r] == Route(RouteRequest(r, EntryOf(s.top, cv).value.endpoint, EntryOf(s.top, wv).value.endpoint,
                                         OrchestrationControl), RequireApproval, Pending, None, t.count - 1, None)
    && t.car == s.car.(issuers := s.car.issuers[id := Stamped(SeatOf(s.top, cv).value.session, t.count - 2)],
                       routeOf := s.car.routeOf[id := Carried(r, s.top.active[w], t.count)],
                       controlOf := s.car.controlOf[r := id])
    && t == s.(count := t.count, auth := t.auth, car := t.car, routes := s.routes[r := t.routes[r]])
    && t.auth.controls == s.auth.controls[id := control]
  }

  /** Controls on their way to the worker. */
  ghost predicate HonoursControls(s: State, t: State, c: Command) {
    match c
    case ProposeControl(cv, wv, id, r, ask) => ControlRecorded(s, t, cv, wv, id, r, ask)
    case DecideControl(r, d) => Decided(s, t, r, d)
    case DispatchControl(r) =>
      && r in s.routes && r in t.routes && r in s.car.controlOf && s.car.controlOf[r] in s.auth.controls && r in t.car.deliveries
      && var d := t.car.deliveries[r];
      && d.control == s.car.controlOf[r] && d.worker == s.auth.controls[d.control].worker && d.at == t.count
      && d.worker in s.staff.owner && d.conversation == s.staff.owner[d.worker]
      && d.control in s.car.routeOf && d.session == s.car.routeOf[d.control].session
      && d.control in s.car.issuers && d.controller == s.car.issuers[d.control].id
      && t.routes[r] == s.routes[r].(gate := Dispatched(User), dispatched := Some(d.dispatch)) && d.dispatch < d.at
      && t == s.(count := t.count, routes := s.routes[r := t.routes[r]],
                 car := s.car.(deliveries := s.car.deliveries[r := d], deliveredOn := s.car.deliveredOn[d.control := r]))
      && (if s.routes[r].dispatched.Some? then t.count == s.count + 1 else t.count == s.count + 2 && d.dispatch == s.count + 1)
    case AckControl(v, r) =>
      && r in s.car.deliveries && s.car.deliveries[r].conversation == v
      && var id := s.car.deliveries[r].control;
         t == s.(count := s.count + 1,
                 car := s.car.(acks := s.car.acks[r := Stamped(id, t.count)], ackedOn := s.car.ackedOn[id := r]))
    case ApplyControl(v, r) => Applied(s, t, v, r)
    case StartExecution(v, r, turn) =>
      && r in s.car.deliveries && s.car.deliveries[r].control in s.auth.controls && r in s.car.acks
      && var id := s.car.deliveries[r].control;
      && var control := s.auth.controls[id];
      && control.permit.Some? && r in t.work.executions
      && t == s.(count := s.count + 1,
                 work := s.work.(executions := s.work.executions[r := t.work.executions[r]],
                                 executionOf := s.work.executionOf[id := r], turns := s.work.turns + {turn}))
      && t.work.executions[r] == Execution(id, control.worker, v, control.goal, control.permit.value.lease,
                                           control.permit.value.ordinal, s.car.acks[r].at, turn, t.count)
    case _ => true
  }

  /** A start order ends with its worker working, a stop order with its worker stopped, and the action is closed. */
  ghost predicate Applied(s: State, t: State, v: int, r: int) {
    && r in s.car.deliveries && s.car.deliveries[r].conversation == v && s.car.deliveries[r].control in s.auth.controls
    && var w, control := s.car.deliveries[r].worker, s.auth.controls[s.car.deliveries[r].control];
    && (control.order.Start? || control.order.Halt?)
    && t == s.(count := t.count, staff := t.staff, work := t.work)
    && r in t.work.actions && t.work.actions[r].result == Some(t.count) && t.work.actions[r].order == control.order
    && t.work.actions == s.work.actions[r := t.work.actions[r]]
    && t.work.executions == s.work.executions
    && if r in s.work.actions && s.work.actions[r].transition.Some? then t.staff == s.staff && t.count == s.count + 1
       else
         && t.count == s.count + (if r in s.work.actions then 2 else 3)
         && t.work.actions[r].transition == Some(t.count - 1)
         && (r !in s.work.actions ==>
               && r in s.car.acks && w in s.staff.lives
               && t.work.actions[r] == Action(s.car.deliveries[r].control, w, v, control.goal, control.order, s.car.acks[r].at,
                                              s.staff.lives[w].lifecycle.phase, s.count + 1, Some(s.count + 2),
                                              Some(if control.order.Start? then Working else Stopped), Some(s.count + 3)))
         && t.staff == s.staff.(lives := s.staff.lives[w := Life(Lifecycle(Some(control.goal),
                                                                         if control.order.Start? then Working else Stopped),
                                                               t.count - 1)])
  }

  ghost predicate Honours(s: State, t: State, c: Command) {
    && HonoursTopology(s, t, c) && HonoursMail(s, t, c) && HonoursTools(s, t, c) && HonoursMemory(s, t, c)
    && HonoursStaff(s, t, c) && HonoursControls(s, t, c)
  }

  // ---- One lemma per group

  /** The state after an uninterrupted command. */
  function Outcome(s: State, c: Command): State
    requires Plan(s, c).Some?
  {
    ApplyAll(s, Plan(s, c).value)
  }

  lemma OutcomeOfOne(s: State, c: Command)
    requires Plan(s, c).Some? && |Plan(s, c).value| == 1
    ensures Outcome(s, c) == Apply(s, Plan(s, c).value[0])
  {
    hide Plan, Apply;
    assert Plan(s, c).value == [Plan(s, c).value[0]];
    ApplyOne(s, Plan(s, c).value[0]);
  }

  lemma BindTopologyHonoured(s: State, v: int, box: int, session: int)
    requires Plan(s, BindTopology(v, box, session)).Some?
    ensures HonoursTopology(s, Outcome(s, BindTopology(v, box, session)), BindTopology(v, box, session))
  {
    ApplyThree(s, Top(SessionRegistered(session)), Top(ContainerCreated(box, session)), Top(ConversationBound(v, box)));
  }

  lemma BindEndpointHonoured(s: State, v: int, session: int, ep: int)
    requires TopInv(s.top, s.count) && Plan(s, BindEndpoint(v, session, ep)).Some?
    ensures HonoursTopology(s, Outcome(s, BindEndpoint(v, session, ep)), BindEndpoint(v, session, ep))
  {
    OutcomeOfOne(s, BindEndpoint(v, session, ep));
  }

  lemma TopologyHonoured(s: State, c: Command)
    requires c.RegisterProvider? || c.BindProvider? || c.RegisterSession? || c.SetPhase? || c.JoinSuccessor?
    requires Plan(s, c).Some?
    ensures HonoursTopology(s, Outcome(s, c), c)
  {
    OutcomeOfOne(s, c);
  }

  lemma ProposeMessageHonoured(s: State, r: int, a: int, b: int)
    requires TopInv(s.top, s.count) && Plan(s, ProposeMessage(r, a, b)).Some?
    ensures HonoursMail(s, Outcome(s, ProposeMessage(r, a, b)), ProposeMessage(r, a, b))
  {
    OutcomeOfOne(s, ProposeMessage(r, a, b));
    ResolveFinds(s.top, s.count, EntryOf(s.top, a).value.endpoint, a);
    ResolveFinds(s.top, s.count, EntryOf(s.top, b).value.endpoint, b);
  }

  lemma DecisionHonoured(s: State, c: Command)
    requires c.AttachPayload? || c.DecideMessage? || c.DecideCall? || c.DecideControl?
    requires Plan(s, c).Some?
    ensures HonoursMail(s, Outcome(s, c), c) && HonoursTools(s, Outcome(s, c), c) && HonoursControls(s, Outcome(s, c), c)
  {
    hide Resolve, Fresh;
    OutcomeOfOne(s, c);
  }

  lemma ResolvedEntry(t: Topology, ep: int)
    ensures Resolve(t, ep).Some? ==> EntryOf(t, Resolve(t, ep).value.conversation) == Resolve(t, ep)
  {
  }

  function LetterOf(s: State, r: int, dispatch: int): Event
    requires BothEndsLive(s, r) && r in s.mail.payloads
  {
    var p := s.mail.payloads[r];
    Post(RouteDelivered(r, p.id, p.sender, p.receiver, Resolve(s.top, s.routes[r].request.source).value.session,
                        Resolve(s.top, s.routes[r].request.destination).value.session, dispatch))
  }

  /** An allowed message is dispatched and delivered; a dispatched one is only delivered. */
  lemma DeliveryPlanned(s: State, r: int)
    requires GatesInv(s.routes, s.count) && PlanDeliverMessage(s, r).Some?
    ensures BothEndsLive(s, r) && r in s.mail.payloads
    ensures Sender(s, r) == s.mail.payloads[r].sender && Receiver(s, r) == s.mail.payloads[r].receiver
    ensures
      PlanDeliverMessage(s, r) ==
      if s.routes[r].dispatched.None? then Some([Routing(RouteDispatched(r, User)), LetterOf(s, r, s.count + 1)])
      else Some([LetterOf(s, r, s.routes[r].dispatched.value)])
    ensures s.routes[r].dispatched.Some? ==> s.routes[r].gate == Dispatched(User) && s.routes[r].dispatched.value <= s.count
  {
    hide Resolve;
    assert GateInv(s.routes[r], s.count);
    var e := LetterOf(s, r, DispatchSequence(s, r));
    assert DispatchPart(s, r).value + [e] == if s.routes[r].dispatched.None? then [Routing(RouteDispatched(r, User)), e] else [e];
  }

  predicate LetterReady(s: State, r: int) {
    && BothEndsLive(s, r) && r in s.mail.payloads
    && Sender(s, r) == s.mail.payloads[r].sender && Receiver(s, r) == s.mail.payloads[r].receiver
  }

  lemma LetterHonoured(s: State, r: int)
    requires LetterReady(s, r) && s.routes[r].dispatched.Some? && s.routes[r].gate == Dispatched(User)
    requires s.routes[r].dispatched.value <= s.count
    ensures HonoursMail(s, Apply(s, LetterOf(s, r, s.routes[r].dispatched.value)), DeliverMessage(r))
  {
    hide Resolve, EntryOf;
    ResolvedEntry(s.top, s.routes[r].request.source);
    ResolvedEntry(s.top, s.routes[r].request.destination);
    assert s.routes[r := s.routes[r]] == s.routes;
  }

  lemma DispatchedLetterHonoured(s: State, r: int)
    requires LetterReady(s, r) && s.routes[r].dispatched.None?
    ensures
      HonoursMail(s, Apply(Apply(s, Routing(RouteDispatched(r, User))), LetterOf(s, r, s.count + 1)), DeliverMessage(r))
  {
    hide Resolve, EntryOf;
    ResolvedEntry(s.top, s.routes[r].request.source);
    ResolvedEntry(s.top, s.routes[r].request.destination);
  }

  lemma DeliverMessageHonoured(s: State, r: int)
    requires GatesInv(s.routes, s.count) && PlanDeliverMessage(s, r).Some?
    ensures HonoursMail(s, ApplyAll(s, PlanDeliverMessage(s, r).value), DeliverMessage(r))
  {
    hide Resolve, EntryOf, PlanDeliverMessage, GatesInv, Apply, ApplyAll, HonoursMail;
    DeliveryPlanned(s, r);
    if s.routes[r].dispatched.None? {
      DispatchedLetterHonoured(s, r);
      ApplyTwo(s, Routing(RouteDispatched(r, User)), LetterOf(s, r, s.count + 1));
    } else {
      LetterHonoured(s, r);
      ApplyOne(s, LetterOf(s, r, s.routes[r].dispatched.value));
    }
  }

  /** A call, its route and their binding, recorded in this order. */
  lemma CallApplied(s: State, id: int, session: int, p: int, operation: string, arguments: string, request: RouteRequest,
                    policy: RoutePolicy)
    ensures
      var t := Apply(Apply(Apply(s, Tool(ToolCallRecorded(id, session, p, operation, arguments))),
                           Routing(RouteProposed(request, policy))), Tool(ToolCallRouteBound(id, request.id)));
      && t == s.(count := s.count + 3, routes := t.routes, tools := t.tools)
      && t.tools == s.tools.(calls := s.tools.calls[id := Call(session, p, operation, arguments, s.count + 1,
                                                               Some(Stamped(request.id, s.count + 3)))],
                             routeOwner := s.tools.routeOwner[request.id := id])
      && t.routes == s.routes[request.id := Route(request, policy, InitialGate(policy), None, s.count + 2, None)]
  {
  }

  lemma ProposeCallHonoured(s: State, id: int, r: int, v: int, p: int, operation: string, arguments: string,
                            policy: RoutePolicy)
    requires PlanProposeCall(s, id, r, v, p, operation, arguments, policy).Some?
    ensures
      var plan := PlanProposeCall(s, id, r, v, p, operation, arguments, policy).value;
      HonoursTools(s, ApplyAll(s, plan), ProposeCall(id, r, v, p, operation, arguments, policy, true))
  {
    hide EntryOf, Apply, ApplyAll;
    var plan := PlanProposeCall(s, id, r, v, p, operation, arguments, policy).value;
    assert plan == [plan[0], plan[1], plan[2]];
    ApplyThree(s, plan[0], plan[1], plan[2]);
    var request := RouteRequest(r, EntryOf(s.top, v).value.endpoint, s.prov.table[p].endpoint.value.id, ToolCall);
    CallApplied(s, id, EntryOf(s.top, v).value.session, p, operation, arguments, request, policy);
  }

  lemma ExecuteHonoured(s: State, c: Command)
    requires c.Execute? && Plan(s, c).Some? && GatesInv(s.routes, s.count) && ToolInv(s.tools, s.routes, s.count)
    ensures HonoursTools(s, Outcome(s, c), c)
  {
    hide Resolve, ByteLength;
    var plan := Plan(s, c).value;
    assert GateInv(s.routes[c.route], s.count);
    assert CallInv(s.tools, s.tools.routeOwner[c.route], s.routes, s.count);
    if |plan| == 2 {
      assert plan == [plan[0], plan[1]];
      ApplyTwo(s, plan[0], plan[1]);
    } else {
      OutcomeOfOne(s, c);
    }
  }

  lemma ResultHonoured(s: State, c: Command)
    requires c.RecordOutcome? || c.DecideResult?
    requires Plan(s, c).Some? && ToolInv(s.tools, s.routes, s.count)
    ensures HonoursTools(s, Outcome(s, c), c)
  {
    hide ByteLength, Blank, Resolve;
    OutcomeOfOne(s, c);
    if c.DecideResult? && c.call in s.tools.admissions {
      assert EvidenceInv(s.tools, c.call, s.count);
    }
  }

  lemma MemoryHonoured(s: State, c: Command)
    requires c.RecordMemory? || c.DecideMemory? || c.SupersedeMemory?
    requires Plan(s, c).Some?
    ensures HonoursMemory(s, Outcome(s, c), c)
  {
    hide Blank;
    OutcomeOfOne(s, c);
  }

  lemma StaffHonoured(s: State, c: Command)
    requires c.BindWorkerId? || c.AssignWorkerGoal?
    requires Plan(s, c).Some?
    ensures HonoursStaff(s, Outcome(s, c), c)
  {
    hide SeatOf, LiveLeases, OpenPermits, SupervisesWorker;
    OutcomeOfOne(s, c);
  }

  lemma SupervisionHonoured(s: State, c: Command)
    requires c.DesignateController? || c.Supervise?
    requires Plan(s, c).Some?
    ensures HonoursStaff(s, Outcome(s, c), c)
  {
    hide SeatOf, SupervisesWorker;
    OutcomeOfOne(s, c);
  }

  lemma GrantLeaseHonoured(s: State, cv: int, wv: int, l: int, allowance: int)
    requires PlanGrantLease(s, cv, wv, l, allowance).Some?
    ensures HonoursStaff(s, ApplyAll(s, PlanGrantLease(s, cv, wv, l, allowance).value), GrantLease(cv, wv, l, allowance))
  {
    hide SeatOf, LiveLeases, OpenPermits, SupervisesWorker, ApplyAll;
    var plan := PlanGrantLease(s, cv, wv, l, allowance).value;
    assert plan == [plan[0]];
    ApplyOne(s, plan[0]);
  }

  lemma MoveWorkerHonoured(s: State, w: int, goal: int, action: WorkerAction)
    requires Plan(s, MoveWorker(w, goal, action)).Some?
    ensures HonoursStaff(s, Outcome(s, MoveWorker(w, goal, action)), MoveWorker(w, goal, action))
  {
    OutcomeOfOne(s, MoveWorker(w, goal, action));
  }

  lemma BindWorkerSessionHonoured(s: State, v: int, w: int)
    requires Plan(s, BindWorkerSession(v, w)).Some?
    ensures HonoursStaff(s, Outcome(s, BindWorkerSession(v, w)), BindWorkerSession(v, w))
  {
    OutcomeOfOne(s, BindWorkerSession(v, w));
  }

  // ---- Controls

  lemma AckHonoured(s: State, v: int, r: int)
    requires PlanAckControl(s, v, r).Some?
    ensures HonoursControls(s, ApplyAll(s, PlanAckControl(s, v, r).value), AckControl(v, r))
  {
    hide ApplyAll;
    var plan := PlanAckControl(s, v, r).value;
    assert plan == [plan[0]];
    ApplyOne(s, plan[0]);
  }

  lemma StartExecutionHonoured(s: State, v: int, r: int, turn: int)
    requires PlanStartExecution(s, v, r, turn).Some? && CarriageInv(s.car, s.auth.controls, s.routes, s.count)
    ensures HonoursControls(s, ApplyAll(s, PlanStartExecution(s, v, r, turn).value), StartExecution(v, r, turn))
  {
    hide ApplyAll;
    var plan := PlanStartExecution(s, v, r, turn).value;
    assert plan == [plan[0]];
    ApplyOne(s, plan[0]);
  }

  lemma FirstApplied(s: State, v: int, r: int)
    requires PlanApplyControl(s, v, r).Some? && r !in s.work.actions
    ensures |PlanApplyControl(s, v, r).value| == 3
    ensures
      var plan := PlanApplyControl(s, v, r).value;
      Applied(s, Apply(Apply(Apply(s, plan[0]), plan[1]), plan[2]), v, r)
  {
    hide Act, Admission;
    var d := s.car.deliveries[r];
    var control := s.auth.controls[d.control];
    AdmissionEnablesAction(LifecycleOf(s, d.worker), control.goal, control.order);
    AdmissionIsPhase(LifecycleOf(s, d.worker), control.goal, control.order);
  }

  lemma AdmissionIsPhase(life: Lifecycle, goal: int, order: ControlKind)
    ensures Admission(life, goal, order).Some? ==> Admission(life, goal, order) == Some(life.phase)
  {
  }

  lemma SecondApplied(s: State, v: int, r: int)
    requires PlanApplyControl(s, v, r).Some? && r in s.work.actions && s.work.actions[r].transition.None?
    requires ActionInv(s.work.actions[r], r, s.car, s.auth.controls, s.count)
    ensures |PlanApplyControl(s, v, r).value| == 2
    ensures
      var plan := PlanApplyControl(s, v, r).value;
      Applied(s, Apply(Apply(s, plan[0]), plan[1]), v, r)
  {
  }

  lemma ThirdApplied(s: State, v: int, r: int)
    requires PlanApplyControl(s, v, r).Some? && r in s.work.actions && s.work.actions[r].transition.Some?
    requires ActionInv(s.work.actions[r], r, s.car, s.auth.controls, s.count)
    ensures |PlanApplyControl(s, v, r).value| == 1 && Applied(s, Apply(s, PlanApplyControl(s, v, r).value[0]), v, r)
  {
  }

  lemma ApplyControlHonoured(s: State, v: int, r: int)
    requires WorkInv(s.work, s.car, s.auth.controls, s.count) && PlanApplyControl(s, v, r).Some?
    ensures Applied(s, ApplyAll(s, PlanApplyControl(s, v, r).value), v, r)
  {
    hide PlanApplyControl, Apply, Applied, ActionInv;
    var plan := PlanApplyControl(s, v, r).value;
    if r !in s.work.actions {
      FirstApplied(s, v, r);
      assert plan == [plan[0], plan[1], plan[2]];
      ApplyThree(s, plan[0], plan[1], plan[2]);
    } else if s.work.actions[r].transition.None? {
      SecondApplied(s, v, r);
      assert plan == [plan[0], plan[1]];
      ApplyTwo(s, plan[0], plan[1]);
    } else {
      ThirdApplied(s, v, r);
      assert plan == [plan[0]];
      ApplyOne(s, plan[0]);
    }
  }

  /** What a proposal chooses: at most one permit issue, then a control of the order asked for. */
  lemma AdmissionCarries(s: State, w: int, goal: int, life: Lifecycle, ask: ControlAction)
    requires PlanAdmission(s, w, goal, life, ask).Some?
    ensures
      var a := PlanAdmission(s, w, goal, life, ask).value;
      && CarriesOrder(s.auth, OpenPermits(s, w, goal), LiveLeases(s, w, goal), ask, Control(w, goal, a.order, a.permit, 0))
      && (a.permit.Some? ==> a.permit.value.lease in s.auth.leases)
      && (if a.issue == [] then a.permit.Some? ==> 1 <= a.permit.value.ordinal <= |s.auth.leases[a.permit.value.lease].permits|
          else a.permit.Some? && a.permit.value.ordinal == |s.auth.leases[a.permit.value.lease].permits| + 1
               && a.issue == [Grant(PermitIssued(a.permit.value.lease, w, goal, a.permit.value.ordinal))])
  {
    hide OpenPermits, LiveLeases;
    if ask.AskContinue? {
      var open, live := OpenPermits(s, w, goal), LiveLeases(s, w, goal);
      if |open| == 1 {
        OpenIsIssued(s, w, goal, TheOnly(open));
      } else {
        assert open == {};
        LiveIsLease(s, w, goal, TheOnly(live));
      }
    }
  }

  lemma OpenIsIssued(s: State, w: int, goal: int, p: PermitRef)
    requires p in OpenPermits(s, w, goal)
    ensures p.lease in s.auth.leases && 1 <= p.ordinal <= |s.auth.leases[p.lease].permits|
  {
  }

  lemma LiveIsLease(s: State, w: int, goal: int, l: int)
    requires l in LiveLeases(s, w, goal)
    ensures l in s.auth.leases
  {
  }

  /** The four events after the choice. */
  function ProposalTail(s: State, cv: int, wv: int, id: int, r: int, goal: int, order: ControlKind, permit: Option<PermitRef>): seq<Event>
    requires wv in s.staff.bindings && SeatOf(s.top, cv).Some? && EntryOf(s.top, cv).Some? && EntryOf(s.top, wv).Some?
  {
    [Grant(ControlAdmitted(id, s.staff.bindings[wv], goal, order, permit)),
     Carry(IssuerBound(id, SeatOf(s.top, cv).value.session)),
     Routing(RouteProposed(RouteRequest(r, EntryOf(s.top, cv).value.endpoint, EntryOf(s.top, wv).value.endpoint,
                                        OrchestrationControl), RequireApproval)),
     Carry(ControlRouteBound(id, r))]
  }

  /** What the four events leave, whether or not a permit was issued before them. */
  lemma TailRecorded(s: State, cv: int, wv: int, id: int, r: int, goal: int, order: ControlKind, permit: Option<PermitRef>)
    requires wv in s.staff.bindings && SeatOf(s.top, cv).Some? && EntryOf(s.top, cv).Some? && EntryOf(s.top, wv).Some?
    requires s.staff.bindings[wv] in s.top.active
    requires permit.Some? ==>
      permit.value.lease in s.auth.leases && 1 <= permit.value.ordinal <= |s.auth.leases[permit.value.lease].permits|
    ensures
      var e, w := ProposalTail(s, cv, wv, id, r, goal, order, permit), s.staff.bindings[wv];
      var t := Apply(Apply(Apply(Apply(s, e[0]), e[1]), e[2]), e[3]);
      && t == s.(count := s.count + 4, auth := t.auth, car := t.car, routes := t.routes)
      && t.auth.controls == s.auth.controls[id := Control(w, goal, order, permit, s.count + 1)]
      && (if permit.None? then t.auth.leases == s.auth.leases
          else permit.value.lease in t.auth.leases
               && 1 <= permit.value.ordinal <= |t.auth.leases[permit.value.lease].permits|
               && t.auth.leases[permit.value.lease].permits[permit.value.ordinal - 1].consumed == Some(Stamped(id, s.count + 1)))
      && t.car == s.car.(issuers := s.car.issuers[id := Stamped(SeatOf(s.top, cv).value.session, s.count + 2)],
                         routeOf := s.car.routeOf[id := Carried(r, s.top.active[w], s.count + 4)],
                         controlOf := s.car.controlOf[r := id])
      && t.routes == s.routes[r := Route(RouteRequest(r, EntryOf(s.top, cv).value.endpoint, EntryOf(s.top, wv).value.endpoint,
                                                      OrchestrationControl), RequireApproval, Pending, None, s.count + 3, None)]
  {
    hide SeatOf, EntryOf;
  }

  lemma ProposalPlanned(s: State, cv: int, wv: int, id: int, r: int, ask: ControlAction)
    requires PlanProposeControl(s, cv, wv, id, r, ask).Some?
    ensures
      && wv in s.staff.bindings && SeatOf(s.top, cv).Some? && EntryOf(s.top, cv).Some? && EntryOf(s.top, wv).Some?
      && s.staff.bindings[wv] in s.top.active && s.staff.bindings[wv] in s.staff.lives
      && id !in s.auth.controls && r !in s.routes
      && var w := s.staff.bindings[wv];
      && var life := s.staff.lives[w].lifecycle;
      && life.goal.Some? && PlanAdmission(s, w, life.goal.value, life, ask).Some?
      && var a := PlanAdmission(s, w, life.goal.value, life, ask).value;
      && PlanProposeControl(s, cv, wv, id, r, ask)
         == Some(a.issue + ProposalTail(s, cv, wv, id, r, life.goal.value, a.order, a.permit))
  {
    hide SeatOf, EntryOf, SupervisesWorker, PlanAdmission;
  }

  /** Applying two stretches one after the other. */
  lemma {:induction false} AppliedBoth(s: State, a: seq<Event>, b: seq<Event>)
    ensures ApplyAll(s, a + b) == ApplyAll(ApplyAll(s, a), b)
  {
    hide Apply;
    if b == [] {
      assert a + b == a;
    } else {
      AppliedBoth(s, a, b[..|b| - 1]);
      assert (a + b)[..|a + b| - 1] == a + b[..|b| - 1];
    }
  }

  lemma IssueApplied(s: State, w: int, goal: int, permit: PermitRef)
    requires permit.lease in s.auth.leases && permit.ordinal == |s.auth.leases[permit.lease].permits| + 1
    ensures
      var t := Apply(s, Grant(PermitIssued(permit.lease, w, goal, permit.ordinal)));
      && t == s.(count := s.count + 1, auth := s.auth.(leases := t.auth.leases))
      && permit.lease in t.auth.leases && permit.ordinal == |t.auth.leases[permit.lease].permits|
  {
  }

  lemma ProposeControlHonoured(s: State, cv: int, wv: int, id: int, r: int, ask: ControlAction)
    requires PlanProposeControl(s, cv, wv, id, r, ask).Some?
    ensures ControlRecorded(s, ApplyAll(s, PlanProposeControl(s, cv, wv, id, r, ask).value), cv, wv, id, r, ask)
  {
    hide PlanProposeControl, PlanAdmission, Apply, ApplyAll, SeatOf, EntryOf, OpenPermits, LiveLeases;
    ProposalPlanned(s, cv, wv, id, r, ask);
    var w := s.staff.bindings[wv];
    var life := s.staff.lives[w].lifecycle;
    var goal := life.goal.value;
    var a := PlanAdmission(s, w, goal, life, ask).value;
    AdmissionCarries(s, w, goal, life, ask);
    var e := ProposalTail(s, cv, wv, id, r, goal, a.order, a.permit);
    var middle := s;
    if a.issue == [] {
      assert a.issue + e == e;
    } else {
      middle := Apply(s, a.issue[0]);
      IssueApplied(s, w, goal, a.permit.value);
      AppliedBoth(s, a.issue, e);
      ApplyOne(s, a.issue[0]);
    }
    assert ApplyAll(s, a.issue + e) == ApplyAll(middle, e);
    assert e == ProposalTail(middle, cv, wv, id, r, goal, a.order, a.permit) == [e[0], e[1], e[2], e[3]];
    ApplyFour(middle, e[0], e[1], e[2], e[3]);
    TailRecorded(middle, cv, wv, id, r, goal, a.order, a.permit);
  }

  // ---- Facts of every journal that the invariant does not carry

  /** Controls are for workers with a lifecycle; a delivered control lies in the inbox of the conversation
      that still owns its worker. */
  ghost predicate ControlsOwned(s: State) {
    && (forall c {:trigger c in s.auth.controls} | c in s.auth.controls :: s.auth.controls[c].worker in s.staff.lives)
    && (forall r {:trigger r in s.car.deliveries} | r in s.car.deliveries ::
          s.car.deliveries[r].worker in s.staff.owner && s.staff.owner[s.car.deliveries[r].worker] == s.car.deliveries[r].conversation)
  }

  /** A bound call still owns both ends of its route. */
  ghost predicate CallsOwnEnds(s: State) {
    forall c {:trigger c in s.tools.calls} | c in s.tools.calls && s.tools.calls[c].route.Some? ::
      s.tools.calls[c].route.value.id in s.routes && CallOwnsEnds(s, s.tools.calls[c], s.routes[s.tools.calls[c].route.value.id])
  }

  lemma ControlsStayOwned(s: State, e: Event)
    requires ControlsOwned(s) && Accepts(s, e)
    ensures ControlsOwned(Apply(s, e))
  {
    hide AcceptsTopology, AcceptsProviders, AcceptsRoutes, AcceptsMail, AcceptsTools, AcceptsMemory, AcceptsSupervision, AcceptsWork;
    hide ApplyTop, ApplyProviders, ApplyRoutes, ApplyMail, ApplyTools, ApplyMemory, ApplySupervision, ApplyWork, MarkTransition;
    hide Resolve, SupervisesWorker, ControlOwnsEnds;
  }

  lemma RoutesKeepCalls(s: State, x: RouteEvent)
    requires CallsOwnEnds(s) && AcceptsRoutes(s, x)
    ensures CallsOwnEnds(Apply(s, Routing(x)))
  {
  }

  lemma ToolsKeepCalls(s: State, x: ToolEvent)
    requires CallsOwnEnds(s) && AcceptsTools(s, x)
    ensures CallsOwnEnds(Apply(s, Tool(x)))
  {
    hide ByteLength, Blank;
  }

  lemma TopologyKeepsCalls(s: State, x: TopEvent)
    requires CallsOwnEnds(s) && AcceptsTopology(s, x)
    ensures CallsOwnEnds(Apply(s, Top(x)))
  {
  }

  lemma ProvidersKeepCalls(s: State, x: ProviderEvent)
    requires CallsOwnEnds(s) && AcceptsProviders(s, x)
    ensures CallsOwnEnds(Apply(s, Prov(x)))
  {
    hide InRouteHistory;
  }

  lemma CallsStayBound(s: State, e: Event)
    requires CallsOwnEnds(s) && Accepts(s, e)
    ensures CallsOwnEnds(Apply(s, e))
  {
    hide AcceptsTopology, AcceptsProviders, AcceptsRoutes, AcceptsMail, AcceptsTools, AcceptsMemory, AcceptsWorkers,
      AcceptsSupervision, AcceptsMandate, AcceptsCarriage, AcceptsWork;
    hide ApplyTop, ApplyProviders, ApplyRoutes, ApplyMail, ApplyTools, ApplyMemory, ApplyWorkers, ApplySupervision, ApplyMandate,
      ApplyCarriage, ApplyWork, MarkTransition;
    match e
    case Top(x) => TopologyKeepsCalls(s, x);
    case Prov(x) => ProvidersKeepCalls(s, x);
    case Routing(x) => RoutesKeepCalls(s, x);
    case Tool(x) => ToolsKeepCalls(s, x);
    case _ =>
  }

  lemma {:induction false} AlwaysOwned(j: Journal)
    requires Legal(j)
    ensures ControlsOwned(Folded(j)) && CallsOwnEnds(Folded(j))
  {
    hide Legal, Accepts, Lawful, Apply, ControlsOwned, CallsOwnEnds;
    if j == [] {
      NothingOwned();
    } else {
      LegalPrefix(j, |j| - 1);
      AlwaysOwned(j[..|j| - 1]);
      AdmittedAt(j, |j| - 1);
      ControlsStayOwned(Folded(j[..|j| - 1]), j[|j| - 1]);
      CallsStayBound(Folded(j[..|j| - 1]), j[|j| - 1]);
    }
  }

  lemma NothingOwned()
    ensures ControlsOwned(EMPTY) && CallsOwnEnds(EMPTY)
  {
  }

  predicate Dispatchable(s: State, r: int) {
    && r in s.routes && r in s.car.controlOf && s.car.controlOf[r] in s.auth.controls && s.car.controlOf[r] in s.car.issuers
    && s.car.controlOf[r] in s.car.routeOf && s.auth.controls[s.car.controlOf[r]].worker in s.staff.owner
  }

  function DeliveryOf(s: State, r: int, dispatch: int): Event
    requires Dispatchable(s, r)
  {
    var c := s.car.controlOf[r];
    var w := s.auth.controls[c].worker;
    Carry(ControlDelivered(c, r, w, s.staff.owner[w], s.car.routeOf[c].session, s.car.issuers[c].id, dispatch))
  }

  /** A dispatched control reaches the inbox of the conversation that owns its worker, at once or on a retry. */
  lemma DispatchPlanned(s: State, r: int)
    requires GatesInv(s.routes, s.count) && StaffInv(s.staff, s.count) && ControlsOwned(s)
    requires PlanDispatchControl(s, r).Some? && CarriageInv(s.car, s.auth.controls, s.routes, s.count)
    ensures Dispatchable(s, r) && s.routes[r].policy.RequireApproval?
    ensures
      PlanDispatchControl(s, r) ==
      if s.routes[r].dispatched.None? then Some([Routing(RouteDispatched(r, User)), DeliveryOf(s, r, s.count + 1)])
      else Some([DeliveryOf(s, r, s.routes[r].dispatched.value)])
    ensures s.routes[r].dispatched.Some? ==> s.routes[r].gate == Dispatched(User) && s.routes[r].dispatched.value <= s.count
  {
    hide Fresh, CarriageInv;
    CarriedIsControl(s, r);
    assert GateInv(s.routes[r], s.count);
    var e := DeliveryOf(s, r, DispatchSequence(s, r));
    assert DispatchPart(s, r).value + [e] == if s.routes[r].dispatched.None? then [Routing(RouteDispatched(r, User)), e] else [e];
  }

  lemma CarriedIsControl(s: State, r: int)
    requires r in s.car.controlOf && CarriageInv(s.car, s.auth.controls, s.routes, s.count)
    ensures s.car.controlOf[r] in s.auth.controls && s.routes[r].request.category.OrchestrationControl?
  {
    var c := s.car.controlOf[r];
    assert c in s.car.routeOf;
    assert c in s.auth.controls;
  }

  lemma ArrivalHonoured(s: State, r: int)
    requires Dispatchable(s, r) && s.routes[r].dispatched.Some? && s.routes[r].gate == Dispatched(User)
    requires s.routes[r].dispatched.value <= s.count
    ensures HonoursControls(s, Apply(s, DeliveryOf(s, r, s.routes[r].dispatched.value)), DispatchControl(r))
  {
    assert s.routes[r := s.routes[r]] == s.routes;
  }

  lemma DispatchedArrivalHonoured(s: State, r: int)
    requires Dispatchable(s, r) && s.routes[r].dispatched.None?
    ensures
      HonoursControls(s, Apply(Apply(s, Routing(RouteDispatched(r, User))), DeliveryOf(s, r, s.count + 1)), DispatchControl(r))
  {
  }

  lemma DispatchControlHonoured(s: State, r: int)
    requires GatesInv(s.routes, s.count) && CarriageInv(s.car, s.auth.controls, s.routes, s.count) && StaffInv(s.staff, s.count)
    requires ControlsOwned(s) && PlanDispatchControl(s, r).Some?
    ensures HonoursControls(s, ApplyAll(s, PlanDispatchControl(s, r).value), DispatchControl(r))
  {
    hide PlanDispatchControl, GatesInv, CarriageInv, StaffInv, ControlsOwned, Apply, ApplyAll, HonoursControls, DeliveryOf;
    DispatchPlanned(s, r);
    if s.routes[r].dispatched.None? {
      DispatchedArrivalHonoured(s, r);
      ApplyTwo(s, Routing(RouteDispatched(r, User)), DeliveryOf(s, r, s.count + 1));
    } else {
      ArrivalHonoured(s, r);
      ApplyOne(s, DeliveryOf(s, r, s.routes[r].dispatched.value));
    }
  }

  // ---- Every command

  /** No command appends more than five events. */
  lemma PlansAreShort(s: State, c: Command)
    requires Plan(s, c).Some?
    ensures |Plan(s, c).value| <= 5
  {
    hide SeatOf, EntryOf, Resolve, Fresh, RebuiltGate, Executable, Decidable, AcceptsTools, AcceptsTopology, SupervisesWorker,
      PlanAdmission, PlanProposeControl;
    if c.ProposeControl? {
      ProposalPlanned(s, c.controller, c.subject, c.control, c.route, c.ask);
      var w := s.staff.bindings[c.subject];
      AdmissionCarries(s, w, s.staff.lives[w].lifecycle.goal.value, s.staff.lives[w].lifecycle, c.ask);
    }
  }

  /** A command asks nothing of the records of another group. */
  lemma OtherGroups(s: State, t: State, c: Command)
    requires IsRouting(c)
    ensures c.BindTopology? || c.BindEndpoint? || c.RegisterProvider? || c.BindProvider? || HonoursTopology(s, t, c)
    ensures c.ProposeMessage? || c.AttachPayload? || c.DecideMessage? || c.DeliverMessage? || HonoursMail(s, t, c)
    ensures c.ProposeCall? || c.DecideCall? || c.Execute? || c.RecordOutcome? || c.DecideResult? || HonoursTools(s, t, c)
    ensures c.RecordMemory? || c.DecideMemory? || c.SupersedeMemory? || HonoursMemory(s, t, c)
  {
  }

  lemma RoutingHonoured(s: State, c: Command)
    requires Inv(s) && Plan(s, c).Some? && IsRouting(c)
    ensures HonoursTopology(s, Outcome(s, c), c) && HonoursMail(s, Outcome(s, c), c) && HonoursTools(s, Outcome(s, c), c)
    ensures HonoursMemory(s, Outcome(s, c), c)
  {
    hide TopInv, ProviderInv, GatesInv, EndsInv, MailInv, ToolInv, MemoryInv, StaffInv, SupervisionInv, LeaseInv,
      SingleAuthority, CarriageInv, WorkInv, ApplyAll, HonoursTopology, HonoursMail, HonoursTools, HonoursMemory;
    OtherGroups(s, Outcome(s, c), c);
    match c
    case BindTopology(v, box, session) => BindTopologyHonoured(s, v, box, session);
    case BindEndpoint(v, session, ep) => BindEndpointHonoured(s, v, session, ep);
    case ProposeMessage(r, a, b) => ProposeMessageHonoured(s, r, a, b);
    case AttachPayload(_, _, _) => DecisionHonoured(s, c);
    case DecideMessage(_, _) => DecisionHonoured(s, c);
    case DecideCall(_, _) => DecisionHonoured(s, c);
    case DeliverMessage(r) => DeliverMessageHonoured(s, r);
    case RegisterProvider(_, _) => TopologyHonoured(s, c);
    case BindProvider(_, _) => TopologyHonoured(s, c);
    case ProposeCall(id, r, v, p, operation, arguments, policy, wellFormed) =>
      ProposeCallHonoured(s, id, r, v, p, operation, arguments, policy);
    case Execute(_, _, _, _) => ExecuteHonoured(s, c);
    case RecordOutcome(_, _, _, _) => ResultHonoured(s, c);
    case DecideResult(_, _, _) => ResultHonoured(s, c);
    case RecordMemory(_, _, _) => MemoryHonoured(s, c);
    case DecideMemory(_, _, _) => MemoryHonoured(s, c);
    case SupersedeMemory(_, _) => MemoryHonoured(s, c);
  }

  lemma WorkHonoured(s: State, c: Command)
    requires Inv(s) && ControlsOwned(s) && Plan(s, c).Some? && !IsRouting(c)
    ensures HonoursTopology(s, Outcome(s, c), c) && HonoursStaff(s, Outcome(s, c), c) && HonoursControls(s, Outcome(s, c), c)
  {
    hide TopInv, ProviderInv, GatesInv, EndsInv, MailInv, ToolInv, MemoryInv, StaffInv, SupervisionInv, LeaseInv,
      SingleAuthority, CarriageInv, WorkInv, ApplyAll, ControlsOwned, ControlRecorded, Applied;
    match c
    case BindWorkerId(_, _) => StaffHonoured(s, c);
    case DesignateController(_) => SupervisionHonoured(s, c);
    case Supervise(_, _) => SupervisionHonoured(s, c);
    case AssignWorkerGoal(_, _) => StaffHonoured(s, c);
    case GrantLease(cv, wv, l, allowance) => GrantLeaseHonoured(s, cv, wv, l, allowance);
    case MoveWorker(w, goal, action) => MoveWorkerHonoured(s, w, goal, action);
    case BindWorkerSession(v, w) => BindWorkerSessionHonoured(s, v, w);
    case ProposeControl(cv, wv, id, r, ask) => ProposeControlHonoured(s, cv, wv, id, r, ask);
    case DecideControl(_, _) => DecisionHonoured(s, c);
    case DispatchControl(r) => DispatchControlHonoured(s, r);
    case AckControl(v, r) => AckHonoured(s, v, r);
    case StartExecution(v, r, turn) => StartExecutionHonoured(s, v, r, turn);
    case ApplyControl(v, r) => ApplyControlHonoured(s, v, r);
    case RegisterSession(_) => TopologyHonoured(s, c);
    case SetPhase(_, _, _) => TopologyHonoured(s, c);
    case JoinSuccessor(_, _, _) => TopologyHonoured(s, c);
  }

  /** Commands of the other half ask nothing of these records. */
  lemma OtherHalf(s: State, t: State, c: Command)
    ensures IsRouting(c) ==> HonoursStaff(s, t, c)
    ensures !IsRouting(c) ==> HonoursMail(s, t, c) && HonoursTools(s, t, c) && HonoursMemory(s, t, c)
    ensures IsRouting(c) ==> HonoursControls(s, t, c)
  {
  }

  /** In every run, an accepted command that nothing interrupts leaves exactly what it asked for. */
  lemma {:induction false} RequestHonoured(steps: seq<Step>, c: Command)
    requires Plan(Folded(Run(steps)), c).Some?
    ensures Honours(Folded(Run(steps)), Folded(Run(steps + [Uncut(c)])), c)
  {
    hide Legal, Run, Folded, Plan, Inv, ApplyAll, Backed, ControlsOwned, CallsOwnEnds, IsRouting, Uncut;
    hide HonoursTopology, HonoursMail, HonoursTools, HonoursMemory, HonoursStaff, HonoursControls;
    RunIndexed(steps);
    var s := Folded(Run(steps));
    AlwaysOwned(Run(steps));
    PlansAreShort(s, c);
    UncutAppends(steps, c, Plan(s, c).value);
    OtherHalf(s, Outcome(s, c), c);
    if IsRouting(c) {
      RoutingHonoured(s, c);
    } else {
      WorkHonoured(s, c);
    }
  }
}
