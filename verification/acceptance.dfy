/** When a command is accepted, in terms of what a caller can look up in the replayed state.

    Many of the checks of journal_ops.rs are implied by the invariant of every run. `Permits` leaves
    those out, so `AcceptedExactly` says both that the remaining conditions suffice and that none of the
    checks refuses anything else. */
module Acceptance {
  import opened Common
  import opened Events
  import opened Core
  import opened Replaying
  import opened Writer
  import opened Invariant
  import opened Safety
  import opened Log
  import opened Index
  import opened Runs
  import opened Authority
  import opened ControlActions
  import opened Uninterrupted
  import opened Requests

  // ---- Conditions

  predicate TakesTurns(phase: SessionPhase) {
    phase.Healthy? || phase.Aging?
  }

  /** The session is its conversation's current leaf and takes ordinary turns. */
  predicate CurrentLeaf(t: Topology, session: int) {
    && ConversationOf(t, session).Some?
    && var seat := SeatOf(t, ConversationOf(t, session).value);
       seat.Some? && seat.value.session == session && TakesTurns(seat.value.phase)
  }

  /** The conversation's current leaf has an endpoint and takes ordinary turns. */
  predicate Reachable(s: State, v: int) {
    EntryOf(s.top, v).Some? && TakesTurns(EntryOf(s.top, v).value.phase)
  }

  predicate Undispatched(s: State, r: int, category: RouteClass) {
    r in s.routes && s.routes[r].request.category == category && s.routes[r].dispatched.None?
  }

  /** The ends of the route are current leaves of the two conversations and take ordinary turns. */
  predicate Connects(s: State, r: int, a: int, b: int) {
    && r in s.routes
    && var from, to := Resolve(s.top, s.routes[r].request.source), Resolve(s.top, s.routes[r].request.destination);
    && from.Some? && to.Some? && from.value.conversation == a && to.value.conversation == b
    && TakesTurns(from.value.phase) && TakesTurns(to.value.phase)
  }

  ghost predicate Conversing(s: State, r: int) {
    exists a, b :: a != b && Connects(s, r, a, b)
  }

  /** The first conversation's current session supervises the session on which the second one's worker is
      active, and that is the second one's current session. */
  predicate Oversees(s: State, cv: int, wv: int) {
    && SeatOf(s.top, cv).Some? && SeatOf(s.top, wv).Some?
    && wv in s.staff.bindings && s.staff.bindings[wv] in s.top.active
    && var session := SeatOf(s.top, wv).value.session;
    && s.top.active[s.staff.bindings[wv]] == session
    && session in s.sup.supervisor && s.sup.supervisor[session].id == SeatOf(s.top, cv).value.session
  }

  /** The worker pursues the goal and stands in a phase that the order fits. */
  predicate Fits(s: State, w: int, goal: int, order: ControlKind) {
    && w in s.staff.lives && s.staff.lives[w].lifecycle.goal == Some(goal)
    && var phase := s.staff.lives[w].lifecycle.phase;
       match order
       case Start => phase.Ready? || phase.NeedsInput? || phase.Blocked?
       case Continue(_) => phase.Working?
       case Halt => !(phase.Completed? || phase.Failed? || phase.Stopped?)
       case Status => true
  }

  /** The conversation has the route's control in its inbox and has acknowledged it. */
  predicate AckedBy(s: State, v: int, r: int) {
    r in s.car.acks && r in s.car.deliveries && s.car.deliveries[r].conversation == v
  }

  /** The action is applied for the first time, or a crashed application is taken up again. */
  predicate PermitsApplication(s: State, v: int, r: int) {
    if r in s.work.actions then Retriable(s, v, r)
    else
      && AckedBy(s, v, r) && s.car.deliveries[r].control in s.auth.controls
      && var d := s.car.deliveries[r];
      && var control := s.auth.controls[d.control];
      && (control.order.Start? || control.order.Halt?) && Fits(s, d.worker, control.goal, control.order)
  }

  predicate PermitsProposal(s: State, cv: int, wv: int, id: int, r: int, ask: ControlAction) {
    && Oversees(s, cv, wv) && EntryOf(s.top, cv).Some? && EntryOf(s.top, wv).Some? && id !in s.auth.controls && r !in s.routes
    && s.staff.bindings[wv] in s.staff.lives
    && var w := s.staff.bindings[wv];
    && var life := s.staff.lives[w].lifecycle;
    && life.goal.Some?
    && match ask
       case AskStart => life.phase.Ready? || life.phase.NeedsInput? || life.phase.Blocked?
       case AskStop => !(life.phase.Completed? || life.phase.Failed? || life.phase.Stopped?)
       case AskStatus => true
       case AskContinue =>
         life.phase.Working? && (OpenPermits(s, w, life.goal.value) != {} || LiveLeases(s, w, life.goal.value) != {})
  }

  ghost predicate PermitsRouting(s: State, c: Command) {
    match c
    case BindTopology(v, box, session) => v !in s.top.bindings && box !in s.top.containers && session !in s.top.sessions
    case BindEndpoint(v, session, ep) =>
      && SeatOf(s.top, v).Some? && SeatOf(s.top, v).value.session == session && EntryOf(s.top, v).None?
      && !EndpointOwned(s, ep)
    case RegisterProvider(p, name) => p !in s.prov.table
    case BindProvider(p, ep) => p in s.prov.table && s.prov.table[p].endpoint.None? && !EndpointOwned(s, ep)
    case ProposeMessage(r, a, b) => Reachable(s, a) && Reachable(s, b) && a != b && r !in s.routes
    case AttachPayload(p, r, text) =>
      && !Blank(text) && p !in s.mail.payloadOwner && r !in s.mail.payloads && Undispatched(s, r, SessionMessage)
      && Conversing(s, r)
    case DecideMessage(r, d) =>
      && Undispatched(s, r, SessionMessage) && s.routes[r].decision != Some(d) && (d.Allow? ==> r in s.mail.payloads)
      && Conversing(s, r)
    case DeliverMessage(r) =>
      && r in s.mail.payloads && r !in s.mail.deliveries && r in s.routes
      && (s.routes[r].dispatched.Some? || s.routes[r].decision == Some(Allow))
      && Connects(s, r, s.mail.payloads[r].sender, s.mail.payloads[r].receiver)
    case ProposeCall(id, r, v, p, operation, arguments, policy, wellFormed) =>
      && wellFormed && (policy.AllowByPolicy? || policy.RequireApproval?) && Reachable(s, v)
      && p in s.prov.table && s.prov.table[p].endpoint.Some? && id !in s.tools.calls && r !in s.routes
    case DecideCall(r, d) =>
      && Undispatched(s, r, ToolCall) && r in s.tools.routeOwner && s.routes[r].policy.RequireApproval?
      && s.routes[r].decision != Some(d)
    case Execute(x, r, ready, text) =>
      && ready && r in s.tools.routeOwner && s.tools.routeOwner[r] in s.tools.calls && Undispatched(s, r, ToolCall)
      && (s.routes[r].policy.AllowByPolicy? || s.routes[r].decision == Some(Allow))
      && CurrentLeaf(s.top, s.tools.calls[s.tools.routeOwner[r]].session)
    case RecordOutcome(id, r, kind, text) =>
      && ByteLength(text) <= 1048576 && (kind.Error? ==> !Blank(text)) && id !in s.tools.outcomes
      && r in s.tools.routeOwner && s.tools.routeOwner[r] == id && r in s.routes && s.routes[r].dispatched.Some?
    case DecideResult(id, v, verdict) =>
      && id in s.tools.outcomes && s.tools.outcomes[id].owner == Some(v)
      && ByteLength(s.tools.outcomes[id].text) <= 65536
      && (id in s.tools.admissions ==> s.tools.admissions[id].verdict != verdict)
    case RecordMemory(m, v, text) => !Blank(text) && m !in s.mem.artifacts
    case DecideMemory(m, v, verdict) =>
      && m in s.mem.artifacts && (verdict.Admit? ==> m !in s.mem.successor)
      && ((m, v) in s.mem.verdicts ==> s.mem.verdicts[(m, v)] != verdict)
    case SupersedeMemory(older, newer) =>
      && older in s.mem.artifacts && newer in s.mem.artifacts
      && s.mem.artifacts[older].conversation == s.mem.artifacts[newer].conversation
      && s.mem.artifacts[older].at < s.mem.artifacts[newer].at
      && older !in s.mem.successor && newer !in s.mem.predecessor
    case _ => true
  }

  /** The phases from which a worker may take the action; reporting a terminal fact again is allowed. */
  predicate MayAct(phase: WorkerPhase, action: WorkerAction) {
    match action
    case StartOrResume => phase.Ready? || phase.NeedsInput? || phase.Blocked?
    case ReportProgress => phase.Working?
    case RequestInput => phase.Working?
    case MarkBlocked => phase.Working?
    case Complete => phase.Working? || phase.Completed?
    case Fail => !(phase.Completed? || phase.Stopped?)
    case Stop => !(phase.Completed? || phase.Failed?)
  }

  predicate PermitsWork(s: State, c: Command) {
    match c
    case BindWorkerId(v, w) => v !in s.staff.bindings && w !in s.staff.owner
    case BindWorkerSession(v, w) =>
      && w in s.staff.owner && s.staff.owner[w] == v && SeatOf(s.top, v).Some?
      && var seat := SeatOf(s.top, v).value;
      && seat.session in s.top.sessions && s.top.sessions[seat.session].worker.None? && seat.session !in s.sup.designated
      && (w in s.top.active ==>
            s.top.containers[seat.container].members[seat.session].predecessor == Some(s.top.active[w]))
    case DesignateController(v) =>
      && SeatOf(s.top, v).Some?
      && var session := SeatOf(s.top, v).value.session;
         session in s.top.sessions && s.top.sessions[session].worker.None? && session !in s.sup.designated
    case Supervise(cv, wv) =>
      && SeatOf(s.top, cv).Some? && SeatOf(s.top, wv).Some? && SeatOf(s.top, cv).value.session in s.sup.designated
      && wv in s.staff.bindings && s.staff.bindings[wv] in s.top.active
      && var session := SeatOf(s.top, wv).value.session;
         s.top.active[s.staff.bindings[wv]] == session && session !in s.sup.supervisor
    case GrantLease(cv, wv, l, allowance) =>
      && allowance > 0 && Oversees(s, cv, wv) && l !in s.auth.leases && s.staff.bindings[wv] in s.staff.lives
      && var w := s.staff.bindings[wv];
      && var life := s.staff.lives[w].lifecycle;
      && life.goal.Some? && !(life.phase.Completed? || life.phase.Failed? || life.phase.Stopped?)
      && LiveLeases(s, w, life.goal.value) == {} && OpenPermits(s, w, life.goal.value) == {}
    case ProposeControl(cv, wv, id, r, ask) => PermitsProposal(s, cv, wv, id, r, ask)
    case DecideControl(r, d) =>
      && r in s.car.controlOf && s.car.controlOf[r] in s.auth.controls && Undispatched(s, r, OrchestrationControl)
      && s.routes[r].decision != Some(d)
      && var control := s.auth.controls[s.car.controlOf[r]]; Fits(s, control.worker, control.goal, control.order)
    case DispatchControl(r) =>
      && r in s.car.controlOf && s.car.controlOf[r] in s.auth.controls && r in s.routes && r !in s.car.deliveries
      && var control := s.auth.controls[s.car.controlOf[r]];
         s.routes[r].dispatched.Some? || (s.routes[r].decision == Some(Allow) && Fits(s, control.worker, control.goal, control.order))
    case AckControl(v, r) => r in s.car.deliveries && s.car.deliveries[r].conversation == v && r !in s.car.acks
    case ApplyControl(v, r) => PermitsApplication(s, v, r)
    case StartExecution(v, r, turn) =>
      && AckedBy(s, v, r) && r !in s.work.executions && turn !in s.work.turns
      && s.car.deliveries[r].control in s.auth.controls
      && var control := s.auth.controls[s.car.deliveries[r].control];
      && control.order.Continue? && Fits(s, control.worker, control.goal, control.order)
    case AssignWorkerGoal(w, goal) =>
      && w in s.staff.owner
      && (w in s.staff.lives ==>
            var phase := s.staff.lives[w].lifecycle.phase; phase.Completed? || phase.Failed? || phase.Stopped?)
    case MoveWorker(w, goal, action) =>
      && w in s.staff.lives && s.staff.lives[w].lifecycle.goal == Some(goal)
      && MayAct(s.staff.lives[w].lifecycle.phase, action)
    case RegisterSession(session) => session !in s.top.sessions
    case SetPhase(box, session, after) =>
      && box in s.top.containers && s.top.containers[box].current == session && session in s.top.containers[box].members
      && var before := s.top.containers[box].members[session].phase;
         (before.Healthy? && (after.Aging? || after.Saturated?)) || (before.Aging? && after.Saturated?)
    case JoinSuccessor(box, new_, handoff) =>
      && box in s.top.containers && new_ in s.top.sessions && new_ !in s.top.home && handoff !in s.top.handoffs
      && var old_ := s.top.containers[box].current;
         old_ in s.top.containers[box].members && s.top.containers[box].members[old_].phase.Saturated?
         && s.top.containers[box].members[old_].successor.None?
    case _ => true
  }

  ghost predicate Permits(s: State, c: Command) {
    if IsRouting(c) then PermitsRouting(s, c) else PermitsWork(s, c)
  }

  // ---- One lemma per group

  lemma SeatIsSession(t: Topology, n: int, v: int)
    requires TopInv(t, n) && SeatOf(t, v).Some?
    ensures SeatOf(t, v).value.session in t.sessions
  {
    var seat := SeatOf(t, v).value;
    assert seat.container in t.containers && seat.session in t.containers[seat.container].members;
    assert seat.session in t.home;
  }

  lemma TenantIsContainer(t: Topology, n: int, box: int)
    requires TopInv(t, n) && box in t.tenant
    ensures box in t.containers
  {
    var v := t.tenant[box];
    assert v in t.bindings;
    assert t.bindings[v] == box && t.bindings[v] in t.containers;
  }

  lemma TopologyAccepted(s: State, c: Command)
    requires c.BindTopology? || c.BindEndpoint? || c.RegisterProvider? || c.BindProvider?
    requires TopInv(s.top, s.count) && EndsInv(s.top, s.prov, s.routes)
    ensures Plan(s, c).Some? <==> PermitsRouting(s, c)
  {
    hide TopInv, EndsInv, InRouteHistory;
    match c
    case BindTopology(v, box, session) =>
      if box in s.top.tenant {
        TenantIsContainer(s.top, s.count, box);
      }
    case BindEndpoint(v, session, ep) =>
      OwnedHasHistory(s, ep);
      if SeatOf(s.top, v).Some? {
        SeatIsSession(s.top, s.count, v);
      }
    case BindProvider(p, ep) => OwnedHasHistory(s, ep);
    case _ =>
  }

  lemma OwnedHasHistory(s: State, ep: int)
    requires EndsInv(s.top, s.prov, s.routes)
    ensures InRouteHistory(s, ep) ==> EndpointOwned(s, ep)
  {
  }

  lemma EndsConnect(s: State, r: int)
    ensures BothEndsLive(s, r) <==> exists a, b :: Connects(s, r, a, b)
    ensures BothEndsLive(s, r) ==> Connects(s, r, Sender(s, r), Receiver(s, r))
    ensures forall a, b :: Connects(s, r, a, b) ==> BothEndsLive(s, r) && a == Sender(s, r) && b == Receiver(s, r)
    ensures BothEndsLive(s, r) && Sender(s, r) != Receiver(s, r) <==> Conversing(s, r)
  {
    hide Resolve;
    if BothEndsLive(s, r) {
      assert Connects(s, r, Sender(s, r), Receiver(s, r));
    }
  }

  lemma MessageAccepted(s: State, c: Command)
    requires c.ProposeMessage? || c.AttachPayload? || c.DecideMessage?
    requires GatesInv(s.routes, s.count)
    ensures Plan(s, c).Some? <==> PermitsRouting(s, c)
  {
    hide Resolve, EntryOf, Blank, BothEndsLive, Conversing, Connects;
    if !c.ProposeMessage? {
      EndsConnect(s, c.route);
      if c.route in s.routes {
        assert GateInv(s.routes[c.route], s.count);
      }
    }
  }

  lemma DeliveryPermitted(s: State, r: int)
    requires GatesInv(s.routes, s.count) && MailInv(s.mail, s.routes, s.count)
    ensures Plan(s, DeliverMessage(r)).Some? <==> PermitsRouting(s, DeliverMessage(r))
  {
    hide Resolve, BothEndsLive, Conversing, Connects;
    EndsConnect(s, r);
    if r in s.routes {
      assert GateInv(s.routes[r], s.count);
    }
  }

  lemma MemoryAccepted(s: State, c: Command)
    requires c.RecordMemory? || c.DecideMemory? || c.SupersedeMemory?
    ensures Plan(s, c).Some? <==> PermitsRouting(s, c)
  {
    hide Blank;
  }

  lemma CallAccepted(s: State, c: Command)
    requires c.ProposeCall? || c.DecideCall?
    requires GatesInv(s.routes, s.count)
    ensures Plan(s, c).Some? <==> PermitsRouting(s, c)
  {
    hide EntryOf;
    if c.DecideCall? && c.route in s.routes {
      assert GateInv(s.routes[c.route], s.count);
    }
  }

  /** The end of a session's endpoint is that session while it is its conversation's current leaf. */
  lemma SourceResolves(t: Topology, n: int, session: int)
    requires TopInv(t, n) && session in t.sessions && t.sessions[session].endpoint.Some?
    ensures
      var from := Resolve(t, t.sessions[session].endpoint.value.id);
      from.Some? && from.value.session == session && TakesTurns(from.value.phase) <==> CurrentLeaf(t, session)
  {
  }

  lemma ExecutionAccepted(s: State, c: Command)
    requires c.Execute?
    requires TopInv(s.top, s.count) && GatesInv(s.routes, s.count) && ToolInv(s.tools, s.routes, s.count) && CallsOwnEnds(s)
    ensures Plan(s, c).Some? <==> PermitsRouting(s, c)
  {
    hide Resolve, CurrentLeaf, TopInv;
    var r := c.route;
    if r in s.tools.routeOwner && s.tools.routeOwner[r] in s.tools.calls {
      var id := s.tools.routeOwner[r];
      assert CallInv(s.tools, id, s.routes, s.count);
      assert GateInv(s.routes[r], s.count);
      SourceResolves(s.top, s.count, s.tools.calls[id].session);
      if id in s.tools.outcomes {
        assert OutcomeInv(s.tools, id, s.routes, s.count);
      }
      if r in s.tools.outcomeOwner {
        assert OutcomeInv(s.tools, s.tools.outcomeOwner[r], s.routes, s.count);
      }
    }
  }

  lemma ResultAccepted(s: State, c: Command)
    requires c.RecordOutcome? || c.DecideResult?
    requires GatesInv(s.routes, s.count) && ToolInv(s.tools, s.routes, s.count)
    ensures Plan(s, c).Some? <==> PermitsRouting(s, c)
  {
    hide Blank, ByteLength;
    if c.RecordOutcome? {
      var r := c.route;
      if r in s.tools.routeOwner {
        assert CallInv(s.tools, s.tools.routeOwner[r], s.routes, s.count);
        assert GateInv(s.routes[r], s.count);
      }
      if c.call in s.tools.calls {
        assert CallInv(s.tools, c.call, s.routes, s.count);
      }
      if r in s.tools.outcomeOwner {
        assert OutcomeInv(s.tools, s.tools.outcomeOwner[r], s.routes, s.count);
      }
    } else if c.call in s.tools.admissions {
      assert EvidenceInv(s.tools, c.call, s.count);
    }
  }

  lemma RoutingAccepted(s: State, c: Command)
    requires Inv(s) && CallsOwnEnds(s) && IsRouting(c)
    ensures Plan(s, c).Some? <==> PermitsRouting(s, c)
  {
    hide TopInv, ProviderInv, GatesInv, EndsInv, MailInv, ToolInv, MemoryInv, StaffInv, SupervisionInv, LeaseInv,
      SingleAuthority, CarriageInv, WorkInv, CallsOwnEnds, Plan, PermitsRouting;
    match c
    case BindTopology(_, _, _) => TopologyAccepted(s, c);
    case BindEndpoint(_, _, _) => TopologyAccepted(s, c);
    case RegisterProvider(_, _) => TopologyAccepted(s, c);
    case BindProvider(_, _) => TopologyAccepted(s, c);
    case ProposeMessage(_, _, _) => MessageAccepted(s, c);
    case AttachPayload(_, _, _) => MessageAccepted(s, c);
    case DecideMessage(_, _) => MessageAccepted(s, c);
    case DeliverMessage(r) => DeliveryPermitted(s, r);
    case ProposeCall(_, _, _, _, _, _, _, _) => CallAccepted(s, c);
    case DecideCall(_, _) => CallAccepted(s, c);
    case Execute(_, _, _, _) => ExecutionAccepted(s, c);
    case RecordOutcome(_, _, _, _) => ResultAccepted(s, c);
    case DecideResult(_, _, _) => ResultAccepted(s, c);
    case RecordMemory(_, _, _) => MemoryAccepted(s, c);
    case DecideMemory(_, _, _) => MemoryAccepted(s, c);
    case SupersedeMemory(_, _) => MemoryAccepted(s, c);
  }

  // ---- Workers and controls

  /** Who is active or has a lifecycle is bound to a conversation. */
  lemma UnboundIsUnknown(s: State, w: int)
    requires StaffInv(s.staff, s.count) && SupervisionInv(s.top, s.sup, s.staff.owner, s.count) && w !in s.staff.owner
    ensures w !in s.staff.lives && w !in s.top.active
    ensures forall x | x in s.top.sessions :: s.top.sessions[x].worker.None? || s.top.sessions[x].worker.value.id != w
  {
    forall x | x in s.top.sessions && s.top.sessions[x].worker.Some? ensures s.top.sessions[x].worker.value.id != w {
      assert s.top.sessions[x].worker.value.id in s.top.active;
    }
  }

  lemma BindingAccepted(s: State, v: int, w: int)
    requires StaffInv(s.staff, s.count) && SupervisionInv(s.top, s.sup, s.staff.owner, s.count)
    ensures Plan(s, BindWorkerId(v, w)).Some? <==> PermitsWork(s, BindWorkerId(v, w))
  {
    hide StaffInv, SupervisionInv;
    if w !in s.staff.owner {
      UnboundIsUnknown(s, w);
    }
  }

  /** A designated controller's session is never a worker's. */
  lemma SidesApart(s: State, w: int, x: int)
    requires SupervisionInv(s.top, s.sup, s.staff.owner, s.count) && w in s.top.active && x in s.sup.designated
    ensures s.top.active[w] in s.top.sessions && s.top.sessions[s.top.active[w]].worker.Some? && s.top.active[w] != x
  {
  }

  /** Supervision already says that the controller is designated and is another conversation. */
  lemma OverseerCommands(s: State, cv: int, wv: int)
    requires SupervisionInv(s.top, s.sup, s.staff.owner, s.count)
    ensures Commands(s, cv, wv) <==> Oversees(s, cv, wv)
  {
    hide SeatOf;
  }

  lemma WorkerAccepted(s: State, c: Command)
    requires c.BindWorkerSession? || c.DesignateController? || c.Supervise?
    requires SupervisionInv(s.top, s.sup, s.staff.owner, s.count)
    ensures Plan(s, c).Some? <==> PermitsWork(s, c)
  {
    hide SeatOf, SupervisionInv;
    if c.Supervise? {
      if PermitsWork(s, c) {
        SidesApart(s, s.staff.bindings[c.subject], SeatOf(s.top, c.controller).value.session);
      }
    } else if c.BindWorkerSession? && c.worker in s.top.active {
      ActiveIsBound(s, c.worker);
    }
  }

  lemma ActiveIsBound(s: State, w: int)
    requires SupervisionInv(s.top, s.sup, s.staff.owner, s.count) && w in s.top.active
    ensures s.top.active[w] in s.top.sessions && s.top.sessions[s.top.active[w]].worker.Some?
  {
  }

  lemma LifecycleAccepted(s: State, c: Command)
    requires c.AssignWorkerGoal? || c.MoveWorker? || c.GrantLease?
    requires StaffInv(s.staff, s.count) && SupervisionInv(s.top, s.sup, s.staff.owner, s.count)
    ensures Plan(s, c).Some? <==> PermitsWork(s, c)
  {
    hide Commands, Oversees, SupervisionInv, LiveLeases, OpenPermits;
    if c.GrantLease? {
      OverseerCommands(s, c.controller, c.subject);
      OverseenIsBound(s, c.controller, c.subject);
    }
  }

  lemma OverseenIsBound(s: State, cv: int, wv: int)
    ensures Oversees(s, cv, wv) ==> wv in s.staff.bindings
  {
  }

  lemma MembersAccepted(s: State, c: Command)
    requires c.RegisterSession? || c.SetPhase? || c.JoinSuccessor?
    requires TopInv(s.top, s.count)
    ensures Plan(s, c).Some? <==> PermitsWork(s, c)
  {
    if c.JoinSuccessor? && c.container in s.top.containers {
      var box := s.top.containers[c.container];
      assert box.current in box.members;
      assert box.current in s.top.home;
    }
  }

  lemma FitsIsAdmission(s: State, w: int, goal: int, order: ControlKind)
    requires order.Continue? ==> order.ordinal > 0
    ensures Fits(s, w, goal, order) <==> w in s.staff.lives && Admission(s.staff.lives[w].lifecycle, goal, order).Some?
  {
  }

  predicate PermitMatches(control: Control)
    requires control.order.Continue?
  {
    control.order.ordinal > 0 && control.permit.Some? && control.permit.value.ordinal == control.order.ordinal
  }

  lemma ControlOf(s: State, r: int)
    requires LeaseInv(s.auth, s.count) && CarriageInv(s.car, s.auth.controls, s.routes, s.count)
    ensures r in s.car.controlOf ==>
      && s.car.controlOf[r] in s.auth.controls && s.car.controlOf[r] in s.car.issuers && s.car.controlOf[r] in s.car.routeOf
      && r in s.routes && s.routes[r].request.category.OrchestrationControl?
      && var control := s.auth.controls[s.car.controlOf[r]];
      && (control.order.Continue? ==> PermitMatches(control))
  {
    if r in s.car.controlOf {
      var c := s.car.controlOf[r];
      assert c in s.car.routeOf;
      assert c in s.auth.controls;
      assert ControlInv(s.auth, c, s.count);
    }
  }

  lemma ControlRouteAccepted(s: State, c: Command)
    requires c.DecideControl? || c.DispatchControl?
    requires LeaseInv(s.auth, s.count) && CarriageInv(s.car, s.auth.controls, s.routes, s.count) && GatesInv(s.routes, s.count)
    ensures Plan(s, c).Some? <==> PermitsWork(s, c)
  {
    hide LeaseInv, CarriageInv, Fits, Admission;
    var r := c.route;
    ControlOf(s, r);
    if r in s.car.controlOf {
      var control := s.auth.controls[s.car.controlOf[r]];
      FitsIsAdmission(s, control.worker, control.goal, control.order);
      assert GateInv(s.routes[r], s.count);
    }
  }

  /** A delivered control lies with the conversation that owns its worker. */
  lemma DeliveryOwned(s: State, v: int, r: int)
    requires LeaseInv(s.auth, s.count) && CarriageInv(s.car, s.auth.controls, s.routes, s.count) && StaffInv(s.staff, s.count)
    requires ControlsOwned(s)
    ensures InInbox(s, v, r) <==> r in s.car.deliveries && s.car.deliveries[r].conversation == v
    ensures InInbox(s, v, r) ==> v in s.staff.bindings && s.staff.bindings[v] == s.car.deliveries[r].worker
    ensures Actionable(s, v, r) <==> AckedBy(s, v, r)
    ensures InInbox(s, v, r) ==>
      var control := s.auth.controls[s.car.deliveries[r].control];
      && control.worker == s.car.deliveries[r].worker
      && (control.order.Continue? ==> PermitMatches(control))
  {
    hide LeaseInv;
    if r in s.car.deliveries {
      assert r in s.car.controlOf;
      ControlOf(s, r);
      assert s.car.deliveries[r].worker in s.staff.owner;
    }
  }

  lemma InboxAccepted(s: State, c: Command)
    requires c.AckControl? || c.StartExecution?
    requires LeaseInv(s.auth, s.count) && CarriageInv(s.car, s.auth.controls, s.routes, s.count) && StaffInv(s.staff, s.count)
    requires ControlsOwned(s) && WorkInv(s.work, s.car, s.auth.controls, s.count)
    ensures Plan(s, c).Some? <==> PermitsWork(s, c)
  {
    hide LeaseInv, CarriageInv, StaffInv, ControlsOwned;
    DeliveryOwned(s, c.conversation, c.route);
    if c.StartExecution? && AckedBy(s, c.conversation, c.route) {
      ExecutedOnRoute(s, c.route);
    }
  }

  lemma ExecutedOnRoute(s: State, r: int)
    requires r in s.car.deliveries && CarriageInv(s.car, s.auth.controls, s.routes, s.count)
    requires WorkInv(s.work, s.car, s.auth.controls, s.count)
    ensures s.car.deliveries[r].control in s.work.executionOf ==> r in s.work.executions
  {
    var c := s.car.deliveries[r].control;
    if c in s.work.executionOf {
      var other := s.work.executionOf[c];
      assert ExecutionInv(s.work.executions[other], other, s.car, s.auth.controls);
      assert r in s.car.controlOf && other in s.car.controlOf;
      assert c in s.car.routeOf;
    }
  }

  lemma ApplicationAccepted(s: State, v: int, r: int)
    requires LeaseInv(s.auth, s.count) && CarriageInv(s.car, s.auth.controls, s.routes, s.count) && StaffInv(s.staff, s.count)
    requires ControlsOwned(s)
    ensures PlanApplyControl(s, v, r).Some? <==> PermitsApplication(s, v, r)
  {
    hide LeaseInv, CarriageInv, StaffInv, ControlsOwned, Retriable;
    DeliveryOwned(s, v, r);
    RetryPlansRemaining(s, v, r);
    if r !in s.work.actions && AckedBy(s, v, r) {
      var d := s.car.deliveries[r];
      FitsIsAdmission(s, d.worker, s.auth.controls[d.control].goal, s.auth.controls[d.control].order);
    }
  }

  /** The phases in which each order may be proposed. */
  lemma AdmissionByPhase(steps: seq<Step>, w: int, goal: int, life: Lifecycle, ask: ControlAction)
    requires life.goal == Some(goal)
    ensures
      var s := Folded(Run(steps));
      PlanAdmission(s, w, goal, life, ask).Some? <==>
      match ask
      case AskStart => life.phase.Ready? || life.phase.NeedsInput? || life.phase.Blocked?
      case AskStop => !(life.phase.Completed? || life.phase.Failed? || life.phase.Stopped?)
      case AskStatus => true
      case AskContinue => life.phase.Working? && (OpenPermits(s, w, goal) != {} || LiveLeases(s, w, goal) != {})
  {
    hide Run, Folded, LiveLeases, OpenPermits, PlanContinue;
    ContinueNeedsOnlyAuthority(steps, w, goal, life);
  }

  lemma ControlProposalAccepted(steps: seq<Step>, cv: int, wv: int, id: int, r: int, ask: ControlAction)
    requires SupervisionInv(Folded(Run(steps)).top, Folded(Run(steps)).sup, Folded(Run(steps)).staff.owner, Folded(Run(steps)).count)
    ensures
      var s := Folded(Run(steps));
      PlanProposeControl(s, cv, wv, id, r, ask).Some? <==> PermitsProposal(s, cv, wv, id, r, ask)
  {
    hide Run, Folded, SupervisesWorker, Seated, EntryOf, SeatOf, LiveLeases, OpenPermits, PlanAdmission, Oversees, SupervisionInv;
    var s := Folded(Run(steps));
    OverseerCommands(s, cv, wv);
    OverseenIsBound(s, cv, wv);
    CommandsSeated(s, cv, wv);
    if Oversees(s, cv, wv) && s.staff.bindings[wv] in s.staff.lives
       && s.staff.lives[s.staff.bindings[wv]].lifecycle.goal.Some? {
      var w := s.staff.bindings[wv];
      var life := s.staff.lives[w].lifecycle;
      AdmissionByPhase(steps, w, life.goal.value, life, ask);
    }
  }

  lemma CommandsSeated(s: State, cv: int, wv: int)
    ensures Commands(s, cv, wv) ==> wv in s.staff.bindings && SeatOf(s.top, cv).Some?
  {
  }

  lemma WorkAccepted(steps: seq<Step>, c: Command)
    requires !IsRouting(c)
    ensures Plan(Folded(Run(steps)), c).Some? <==> PermitsWork(Folded(Run(steps)), c)
  {
    hide TopInv, ProviderInv, GatesInv, EndsInv, MailInv, ToolInv, MemoryInv, StaffInv, SupervisionInv, LeaseInv,
      SingleAuthority, CarriageInv, WorkInv, ControlsOwned, CallsOwnEnds, Legal, Backed, Run, Folded;
    hide PermitsApplication, PermitsProposal, PlanApplyControl, PlanProposeControl;
    var s := Folded(Run(steps));
    RunIndexed(steps);
    AlwaysOwned(Run(steps));
    match c
    case BindWorkerId(v, w) => BindingAccepted(s, v, w);
    case BindWorkerSession(_, _) => WorkerAccepted(s, c);
    case DesignateController(_) => WorkerAccepted(s, c);
    case Supervise(_, _) => WorkerAccepted(s, c);
    case GrantLease(_, _, _, _) => LifecycleAccepted(s, c);
    case AssignWorkerGoal(_, _) => LifecycleAccepted(s, c);
    case MoveWorker(_, _, _) => LifecycleAccepted(s, c);
    case ProposeControl(cv, wv, id, r, ask) => ControlProposalAccepted(steps, cv, wv, id, r, ask);
    case DecideControl(_, _) => ControlRouteAccepted(s, c);
    case DispatchControl(_) => ControlRouteAccepted(s, c);
    case AckControl(_, _) => InboxAccepted(s, c);
    case StartExecution(_, _, _) => InboxAccepted(s, c);
    case ApplyControl(v, r) => ApplicationAccepted(s, v, r);
    case RegisterSession(_) => MembersAccepted(s, c);
    case SetPhase(_, _, _) => MembersAccepted(s, c);
    case JoinSuccessor(_, _, _) => MembersAccepted(s, c);
  }

  /** In every run a command is accepted exactly when `Permits` holds. */
  lemma {:induction false} AcceptedExactly(steps: seq<Step>, c: Command)
    ensures Plan(Folded(Run(steps)), c).Some? <==> Permits(Folded(Run(steps)), c)
  {
    hide Plan, PermitsRouting, PermitsWork, Inv, CallsOwnEnds, ControlsOwned, Legal, Backed, Run, Folded, IsRouting;
    if IsRouting(c) {
      RunIndexed(steps);
      AlwaysOwned(Run(steps));
      RoutingAccepted(Folded(Run(steps)), c);
    } else {
      WorkAccepted(steps, c);
    }
  }
}
