/** The writer's invariant: everything a durable journal satisfies at every crash point.

    `Admits` is what is known when one event is appended: the store's own checks plus the guards
    of journal_ops.rs that the store does not repeat. `Inv` is kept by every admitted event. */
module Invariant {
  import opened Common
  import opened Events
  import opened Core
  import opened Replaying
  import opened Writer

  predicate EndpointOwned(s: State, ep: int) {
    ep in s.top.endpointOwner || ep in s.prov.endpointOwner
  }

  // The guards of journal_ops.rs beyond the store's checks, per appended event.

  ghost predicate LawfulRoutes(s: State, e: RouteEvent) {
    match e
    case RouteProposed(request, policy) =>
      && EndpointOwned(s, request.source) && EndpointOwned(s, request.destination)
      && (if request.category.ToolCall? then !policy.DenyByPolicy? else policy.RequireApproval?)
    case RouteDecided(r, d) =>
      && r in s.routes && s.routes[r].policy.RequireApproval? && s.routes[r].decision != Some(d)
      && (s.routes[r].request.category.SessionMessage? && d.Allow? ==> r in s.mail.payloads)
    case RouteDispatched(r, grant) =>
      && r in s.routes
      && (s.routes[r].request.category.SessionMessage? ==> r in s.mail.payloads)
      && (s.routes[r].request.category.ToolCall? ==>
            r in s.tools.routeOwner && Authorized(s.routes[r]) && r !in s.tools.outcomeOwner)
  }

  ghost predicate LawfulMemory(s: State, e: MemoryEvent) {
    match e
    case MemoryDecided(m, v, verdict) => verdict.Admit? ==> m !in s.mem.successor
    case _ => true
  }

  ghost predicate LawfulWorkers(s: State, e: StaffEvent) {
    match e
    case WorkerBound(v, w) =>
      && w !in s.staff.lives
      && (forall x | x in s.top.sessions :: s.top.sessions[x].worker.None? || s.top.sessions[x].worker.value.id != w)
    case GoalAssigned(w, goal) => w in s.staff.owner
    case Transition(w, goal, action, cause) =>
      && w in s.staff.owner && w in s.staff.lives
      && (cause.Some? ==>
            && cause.value.route in s.work.actions
            && s.staff.lives[w].last <= cause.value.started
            && Admission(s.staff.lives[w].lifecycle, goal, s.work.actions[cause.value.route].order)
               == Some(s.work.actions[cause.value.route].phase))
  }

  ghost predicate LawfulSeats(s: State, e: TopEvent) {
    match e
    case WorkerSessionBound(w, session) =>
      && w in s.staff.owner && SeatOf(s.top, s.staff.owner[w]).Some?
      && SeatOf(s.top, s.staff.owner[w]).value.session == session
    case WorkerSessionMoved(w, old_, new_) =>
      && w in s.staff.owner && SeatOf(s.top, s.staff.owner[w]).Some?
      && var seat := SeatOf(s.top, s.staff.owner[w]).value;
      && seat.session == new_
      && s.top.containers[seat.container].members[new_].predecessor == Some(old_)
    case _ => true
  }

  ghost predicate LawfulMandate(s: State, e: MandateEvent) {
    match e
    case LeaseCreated(l, w, goal, allowance) =>
      allowance > 0 && LiveLeases(s, w, goal) == {} && OpenPermits(s, w, goal) == {}
    case PermitIssued(l, w, goal, ordinal) => OpenPermits(s, w, goal) == {}
    case _ => true
  }

  ghost predicate Lawful(s: State, e: Event) {
    match e
    case Top(x) => LawfulSeats(s, x)
    case Routing(x) => LawfulRoutes(s, x)
    case Recall(x) => LawfulMemory(s, x)
    case Staff(x) => LawfulWorkers(s, x)
    case Grant(x) => LawfulMandate(s, x)
    case _ => true
  }

  ghost predicate Admits(s: State, e: Event) {
    Accepts(s, e) && Lawful(s, e)
  }

  // ---- Invariants, one group per audit

  /** Sessions and endpoints are in bijection. */
  ghost predicate EndpointMaps(t: Topology, n: int) {
    && (forall x {:trigger x in t.sessions} | x in t.sessions && t.sessions[x].endpoint.Some? ::
          && t.sessions[x].endpoint.value.at <= n && t.sessions[x].endpoint.value.id in t.endpointOwner
          && t.endpointOwner[t.sessions[x].endpoint.value.id] == x)
    && (forall ep {:trigger ep in t.endpointOwner} | ep in t.endpointOwner ::
          && t.endpointOwner[ep] in t.sessions && t.sessions[t.endpointOwner[ep]].endpoint.Some?
          && t.sessions[t.endpointOwner[ep]].endpoint.value.id == ep)
  }

  /** Every session lives in at most one container, whose current leaf is a member. */
  ghost predicate HomeMaps(t: Topology) {
    && (forall c {:trigger c in t.containers} | c in t.containers :: t.containers[c].current in t.containers[c].members)
    && (forall x {:trigger x in t.home} | x in t.home ::
          x in t.sessions && t.home[x] in t.containers && x in t.containers[t.home[x]].members)
    && (forall c, x | c in t.containers && x in t.containers[c].members :: x in t.home && t.home[x] == c)
  }

  /** Conversations and bound containers are in bijection. */
  ghost predicate BindingMaps(t: Topology) {
    && (forall v {:trigger v in t.bindings} | v in t.bindings ::
          t.bindings[v] in t.containers && t.bindings[v] in t.tenant && t.tenant[t.bindings[v]] == v)
    && (forall c {:trigger c in t.tenant} | c in t.tenant :: t.tenant[c] in t.bindings && t.bindings[t.tenant[c]] == c)
  }

  ghost predicate TopInv(t: Topology, n: int) {
    EndpointMaps(t, n) && HomeMaps(t) && BindingMaps(t)
  }

  /** Providers and endpoints are in bijection, and no session shares an endpoint with a provider. */
  ghost predicate ProviderInv(p: Providers, t: Topology, n: int) {
    && (forall x {:trigger x in p.table} | x in p.table && p.table[x].endpoint.Some? ::
          && p.table[x].endpoint.value.at <= n && p.table[x].endpoint.value.id in p.endpointOwner
          && p.endpointOwner[p.table[x].endpoint.value.id] == x)
    && (forall ep {:trigger ep in p.endpointOwner} | ep in p.endpointOwner ::
          && p.endpointOwner[ep] in p.table && p.table[p.endpointOwner[ep]].endpoint.Some?
          && p.table[p.endpointOwner[ep]].endpoint.value.id == ep && ep !in t.endpointOwner)
  }

  ghost predicate SessionBoundBefore(t: Topology, ep: int, at: int) {
    && ep in t.endpointOwner && t.endpointOwner[ep] in t.sessions
    && t.sessions[t.endpointOwner[ep]].endpoint.Some? && t.sessions[t.endpointOwner[ep]].endpoint.value.at < at
  }

  ghost predicate ProviderBoundBefore(p: Providers, ep: int, at: int) {
    && ep in p.endpointOwner && p.endpointOwner[ep] in p.table
    && p.table[p.endpointOwner[ep]].endpoint.Some? && p.table[p.endpointOwner[ep]].endpoint.value.at < at
  }

  /** The endpoint was bound to its session or provider before sequence `at`. */
  ghost predicate BoundBefore(t: Topology, p: Providers, ep: int, at: int) {
    SessionBoundBefore(t, ep, at) || ProviderBoundBefore(p, ep, at)
  }

  /** Both ends of every route were owned before the route was proposed. */
  ghost predicate EndsInv(t: Topology, p: Providers, routes: map<int, Route>) {
    forall r {:trigger r in routes} | r in routes ::
      && BoundBefore(t, p, routes[r].request.source, routes[r].proposed)
      && BoundBefore(t, p, routes[r].request.destination, routes[r].proposed)
  }

  /** The gate is determined by the initial policy and the latest decision, plus the dispatch. */
  ghost predicate GateInv(route: Route, n: int) {
    && route.proposed <= n
    && (if route.dispatched.None? then !route.gate.Dispatched? && RebuiltGate(route) == Some(route.gate)
        else && route.gate.Dispatched? && RebuiltGate(route) == Some(Allowed(route.gate.grant))
             && route.proposed < route.dispatched.value <= n)
    && (route.request.category.ToolCall? || route.policy.RequireApproval?)
    && !route.policy.DenyByPolicy?
    && (route.policy.AllowByPolicy? ==> route.decision.None?)
  }

  ghost predicate GatesInv(routes: map<int, Route>, n: int) {
    forall r {:trigger r in routes} | r in routes :: routes[r].request.id == r && GateInv(routes[r], n)
  }

  ghost predicate MailInv(m: Mail, routes: map<int, Route>, n: int) {
    && (forall r {:trigger r in m.payloads} | r in m.payloads ::
          && r in routes && routes[r].request.category.SessionMessage?
          && routes[r].proposed < m.payloads[r].at <= n && m.payloads[r].sender != m.payloads[r].receiver
          && (routes[r].dispatched.Some? ==> m.payloads[r].at < routes[r].dispatched.value)
          && m.payloads[r].id in m.payloadOwner && m.payloadOwner[m.payloads[r].id] == r)
    && (forall r {:trigger r in routes} | r in routes && routes[r].request.category.SessionMessage?
                   && (routes[r].dispatched.Some? || routes[r].decision == Some(Allow)) ::
          r in m.payloads)
    && (forall r {:trigger r in m.deliveries} | r in m.deliveries ::
          && r in m.payloads && r in routes && routes[r].dispatched == Some(m.deliveries[r].dispatch)
          && m.deliveries[r].payload == m.payloads[r].id && m.deliveries[r].sender == m.payloads[r].sender
          && m.deliveries[r].receiver == m.payloads[r].receiver && m.deliveries[r].dispatch < m.deliveries[r].at <= n)
  }

  /** A bound call, its route and the route's dispatch are durable in this order. */
  ghost predicate CallInv(k: Tools, c: int, routes: map<int, Route>, n: int)
    requires c in k.calls
  {
    && k.calls[c].recorded <= n
    && (k.calls[c].route.Some? ==>
          var r := k.calls[c].route.value.id;
          && r in k.routeOwner && k.routeOwner[r] == c && r in routes && routes[r].request.category.ToolCall?
          && k.calls[c].recorded < routes[r].proposed < k.calls[c].route.value.at <= n
          && (routes[r].dispatched.Some? ==> k.calls[c].route.value.at < routes[r].dispatched.value))
  }

  ghost predicate OutcomeInv(k: Tools, c: int, routes: map<int, Route>, n: int)
    requires c in k.outcomes
  {
    var o := k.outcomes[c];
    && c in k.calls && k.calls[c].route == Some(Stamped(o.route, o.bound)) && k.calls[c].recorded == o.recorded
    && k.calls[c].provider == o.provider && k.calls[c].session == o.session
    && o.route in routes && routes[o.route].dispatched == Some(o.dispatch)
    && o.bound < o.dispatch < o.observed <= n && o.route in k.outcomeOwner && k.outcomeOwner[o.route] == c
  }

  ghost predicate EvidenceInv(k: Tools, c: int, n: int)
    requires c in k.admissions
  {
    && c in k.outcomes
    && var a, o := k.admissions[c], k.outcomes[c];
    && a.route == o.route && a.provider == o.provider && a.session == o.session && a.observed == o.observed
    && a.kind == o.kind && o.owner == Some(a.conversation) && ByteLength(o.text) <= MAX_CONTEXT_BYTES
    && a.observed < a.first <= a.last <= n
  }

  ghost predicate ToolInv(k: Tools, routes: map<int, Route>, n: int) {
    && (forall c {:trigger c in k.calls} | c in k.calls :: CallInv(k, c, routes, n))
    && (forall r {:trigger r in k.routeOwner} | r in k.routeOwner ::
          k.routeOwner[r] in k.calls && k.calls[k.routeOwner[r]].route.Some? && k.calls[k.routeOwner[r]].route.value.id == r)
    && (forall r {:trigger r in routes} | r in routes && routes[r].request.category.ToolCall? && routes[r].dispatched.Some? ::
          r in k.routeOwner && routes[r].gate.Dispatched?
          && ExpectedAuthority(routes[r].policy) == Some(routes[r].gate.grant))
    && (forall c {:trigger c in k.outcomes} | c in k.outcomes :: OutcomeInv(k, c, routes, n))
    && (forall r {:trigger r in k.outcomeOwner} | r in k.outcomeOwner :: k.outcomeOwner[r] in k.outcomes && k.outcomes[k.outcomeOwner[r]].route == r)
    && (forall c {:trigger c in k.admissions} | c in k.admissions :: EvidenceInv(k, c, n))
  }

  ghost predicate MemoryInv(m: Memory, n: int) {
    && (forall a {:trigger a in m.artifacts} | a in m.artifacts :: m.artifacts[a].at <= n)
    && (forall a {:trigger a in m.successor} | a in m.successor ::
          && a in m.artifacts && m.successor[a].id in m.artifacts
          && m.artifacts[a].conversation == m.artifacts[m.successor[a].id].conversation
          && m.artifacts[a].at < m.artifacts[m.successor[a].id].at
          && m.successor[a].id in m.predecessor && m.predecessor[m.successor[a].id] == a)
    && (forall a {:trigger a in m.predecessor} | a in m.predecessor :: m.predecessor[a] in m.successor && m.successor[m.predecessor[a]].id == a)
  }

  ghost predicate StaffInv(f: Workers, n: int) {
    && (forall v {:trigger v in f.bindings} | v in f.bindings :: f.bindings[v] in f.owner && f.owner[f.bindings[v]] == v)
    && (forall w {:trigger w in f.owner} | w in f.owner :: f.owner[w] in f.bindings && f.bindings[f.owner[w]] == w)
    && (forall w {:trigger w in f.lives} | w in f.lives :: w in f.owner && f.lives[w].last <= n && f.lives[w].lifecycle.goal.Some?)
  }

  ghost predicate SupervisionInv(t: Topology, u: Supervision, owner: map<int, int>, n: int) {
    && (forall x {:trigger x in u.designated} | x in u.designated :: x in t.sessions && t.sessions[x].worker.None?)
    && (forall x {:trigger x in u.supervisor} | x in u.supervisor ::
          x in t.sessions && t.sessions[x].worker.Some? && u.supervisor[x].id in u.designated)
    && (forall x {:trigger x in t.sessions} | x in t.sessions && t.sessions[x].worker.Some? ::
          t.sessions[x].worker.value.id in t.active && t.sessions[x].worker.value.at <= n && x in t.home)
    && (forall w {:trigger w in t.active} | w in t.active ::
          && w in owner && t.active[w] in t.sessions && t.sessions[t.active[w]].worker.Some?
          && t.sessions[t.active[w]].worker.value.id == w)
  }

  ghost predicate LeaseInv(a: Mandate, n: int) {
    && (forall l {:trigger l in a.leases} | l in a.leases :: |a.leases[l].permits| <= a.leases[l].allowance && a.leases[l].created <= n)
    && (forall l, i | l in a.leases && 0 <= i < |a.leases[l].permits| ::
          a.leases[l].created < a.leases[l].permits[i].issued <= n)
    && (forall l, i | l in a.leases && 0 <= i < |a.leases[l].permits| && a.leases[l].permits[i].consumed.Some? ::
          && a.leases[l].permits[i].consumed.value.id in a.controls
          && a.controls[a.leases[l].permits[i].consumed.value.id].permit == Some(PermitRef(l, i + 1)))
    && (forall c {:trigger c in a.controls} | c in a.controls :: ControlInv(a, c, n))
  }

  /** A Continue consumed exactly the permit it names; no other control names one. */
  ghost predicate ControlInv(a: Mandate, c: int, n: int)
    requires c in a.controls
  {
    && a.controls[c].at <= n && (a.controls[c].permit.Some? <==> a.controls[c].order.Continue?)
    && (a.controls[c].permit.Some? ==>
          var p := a.controls[c].permit.value;
          && a.controls[c].order == Continue(p.ordinal)
          && p.lease in a.leases && Concerns(a.leases[p.lease], a.controls[c].worker, a.controls[c].goal)
          && 1 <= p.ordinal <= |a.leases[p.lease].permits|
          && a.leases[p.lease].permits[p.ordinal - 1].consumed.Some?
          && a.leases[p.lease].permits[p.ordinal - 1].consumed.value.id == c)
  }

  ghost predicate IsLive(a: Mandate, l: int, w: int, g: int) {
    l in a.leases && Concerns(a.leases[l], w, g) && a.leases[l].Remaining() > 0
  }

  ghost predicate IsOpen(a: Mandate, p: PermitRef, w: int, g: int) {
    p.lease in a.leases && Concerns(a.leases[p.lease], w, g) && Unconsumed(a.leases[p.lease], p.ordinal)
  }

  /** At most one live lease and one open permit per worker and goal. */
  ghost predicate SingleAuthority(a: Mandate) {
    && (forall w, g, l1, l2 | IsLive(a, l1, w, g) && IsLive(a, l2, w, g) :: l1 == l2)
    && (forall w, g, p1, p2 | IsOpen(a, p1, w, g) && IsOpen(a, p2, w, g) :: p1 == p2)
  }

  ghost predicate CarriageInv(k: Carriage, controls: map<int, Control>, routes: map<int, Route>, n: int) {
    && (forall c {:trigger c in k.issuers} | c in k.issuers :: c in controls)
    && (forall c {:trigger c in k.routeOf} | c in k.routeOf ::
          && c in controls && c in k.issuers && k.routeOf[c].route in k.controlOf && k.controlOf[k.routeOf[c].route] == c
          && controls[c].at < k.routeOf[c].at <= n)
    && (forall r {:trigger r in k.controlOf} | r in k.controlOf ::
          && k.controlOf[r] in k.routeOf && k.routeOf[k.controlOf[r]].route == r
          && r in routes && routes[r].request.category.OrchestrationControl?
          && (routes[r].dispatched.Some? ==> k.routeOf[k.controlOf[r]].at < routes[r].dispatched.value))
    && (forall r {:trigger r in routes} | r in routes && routes[r].request.category.OrchestrationControl? && routes[r].dispatched.Some? ::
          r in k.controlOf)
    && (forall r {:trigger r in k.deliveries} | r in k.deliveries ::
          && r in k.controlOf && k.controlOf[r] == k.deliveries[r].control && k.deliveries[r].at <= n
          && controls[k.deliveries[r].control].worker == k.deliveries[r].worker
          && routes[r].dispatched == Some(k.deliveries[r].dispatch) && k.deliveries[r].dispatch < k.deliveries[r].at)
    && (forall c {:trigger c in k.deliveredOn} | c in k.deliveredOn :: k.deliveredOn[c] in k.deliveries && k.deliveries[k.deliveredOn[c]].control == c)
    && (forall r {:trigger r in k.acks} | r in k.acks ::
          r in k.deliveries && k.deliveries[r].control == k.acks[r].id && k.deliveries[r].at < k.acks[r].at <= n)
    && (forall c {:trigger c in k.ackedOn} | c in k.ackedOn :: k.ackedOn[c] in k.acks && k.acks[k.ackedOn[c]].id == c)
  }

  /** An action record matches the acknowledged delivery and advances start, transition, result. */
  ghost predicate ActionInv(a: Action, r: int, k: Carriage, controls: map<int, Control>, n: int) {
    && r in k.acks && k.acks[r].at == a.acked < a.started <= n
    && r in k.deliveries && k.deliveries[r].control == a.control && k.deliveries[r].worker == a.worker
    && k.deliveries[r].conversation == a.conversation
    && a.control in controls && controls[a.control].goal == a.goal && controls[a.control].order == a.order
    && ActionOf(a.order).Some?
    && (a.transition.Some? ==> a.resulting == ResultingPhase(a.order) && a.started < a.transition.value <= n)
    && (a.result.Some? ==> a.transition.Some? && a.transition.value < a.result.value <= n)
  }

  ghost predicate ExecutionInv(x: Execution, r: int, k: Carriage, controls: map<int, Control>) {
    && r in k.deliveries && k.deliveries[r].control == x.control && x.control in controls
    && controls[x.control].permit == Some(PermitRef(x.lease, x.ordinal))
    && controls[x.control].worker == x.worker && controls[x.control].goal == x.goal
  }

  ghost predicate WorkInv(work: Work, k: Carriage, controls: map<int, Control>, n: int) {
    && (forall r {:trigger r in work.actions} | r in work.actions :: ActionInv(work.actions[r], r, k, controls, n))
    && (forall c {:trigger c in work.actionOf} | c in work.actionOf :: work.actionOf[c] in work.actions && work.actions[work.actionOf[c]].control == c)
    && (forall r {:trigger r in work.executions} | r in work.executions ::
          && ExecutionInv(work.executions[r], r, k, controls)
          && work.executions[r].control in work.executionOf && work.executionOf[work.executions[r].control] == r)
    && (forall c {:trigger c in work.executionOf} | c in work.executionOf ::
          work.executionOf[c] in work.executions && work.executions[work.executionOf[c]].control == c)
  }

  /** Every group, with all recorded sequence numbers at most `n`. */
  ghost predicate InvUpTo(s: State, n: int) {
    && TopInv(s.top, n) && ProviderInv(s.prov, s.top, n) && GatesInv(s.routes, n)
    && EndsInv(s.top, s.prov, s.routes) && MailInv(s.mail, s.routes, n) && ToolInv(s.tools, s.routes, n)
    && MemoryInv(s.mem, n) && StaffInv(s.staff, n) && SupervisionInv(s.top, s.sup, s.staff.owner, n)
    && LeaseInv(s.auth, n) && SingleAuthority(s.auth) && CarriageInv(s.car, s.auth.controls, s.routes, n)
    && WorkInv(s.work, s.car, s.auth.controls, n)
  }

  ghost predicate Inv(s: State) {
    InvUpTo(s, s.count)
  }

  // ---- Every admitted event keeps every group it can touch

  lemma TopologyKeepsEndpoints(s: State, x: TopEvent)
    requires EndpointMaps(s.top, s.count) && AcceptsTopology(s, x)
    ensures EndpointMaps(ApplyTop(s.top, x, s.count + 1), s.count + 1)
  {
  }

  lemma TopologyKeepsHomes(s: State, x: TopEvent)
    requires HomeMaps(s.top) && AcceptsTopology(s, x)
    ensures HomeMaps(ApplyTop(s.top, x, s.count + 1))
  {
  }

  lemma TopologyKeepsBindings(s: State, x: TopEvent)
    requires BindingMaps(s.top) && AcceptsTopology(s, x)
    ensures BindingMaps(ApplyTop(s.top, x, s.count + 1))
  {
  }

  lemma TopologyKeepsEnds(s: State, x: TopEvent)
    requires EndsInv(s.top, s.prov, s.routes) && AcceptsTopology(s, x)
    ensures EndsInv(ApplyTop(s.top, x, s.count + 1), s.prov, s.routes)
  {
  }

  lemma SeatIsHome(t: Topology, v: int)
    requires HomeMaps(t) && SeatOf(t, v).Some?
    ensures SeatOf(t, v).value.session in t.home
  {
  }

  lemma BindingKeepsSupervision(s: State, w: int, session: int)
    requires SupervisionInv(s.top, s.sup, s.staff.owner, s.count)
    requires session in s.top.sessions && s.top.sessions[session].worker.None? && session !in s.sup.designated
    requires w in s.staff.owner && session in s.top.home
    ensures SupervisionInv(BindWorker(s.top, w, session, s.count + 1), s.sup, s.staff.owner, s.count + 1)
  {
  }

  lemma MembershipKeepsSupervision(s: State, x: TopEvent)
    requires SupervisionInv(s.top, s.sup, s.staff.owner, s.count) && AcceptsTopology(s, x)
    requires !x.WorkerSessionBound? && !x.WorkerSessionMoved?
    ensures SupervisionInv(ApplyTop(s.top, x, s.count + 1), s.sup, s.staff.owner, s.count + 1)
  {
  }

  lemma TopologyKeepsSupervision(s: State, x: TopEvent)
    requires TopInv(s.top, s.count) && SupervisionInv(s.top, s.sup, s.staff.owner, s.count)
    requires AcceptsTopology(s, x) && LawfulSeats(s, x)
    ensures SupervisionInv(ApplyTop(s.top, x, s.count + 1), s.sup, s.staff.owner, s.count + 1)
  {
    hide SupervisionInv, EndpointMaps, BindingMaps;
    match x
    case WorkerSessionBound(w, session) =>
      SeatIsHome(s.top, s.staff.owner[w]);
      BindingKeepsSupervision(s, w, session);
    case WorkerSessionMoved(w, old_, new_) =>
      SeatIsHome(s.top, s.staff.owner[w]);
      BindingKeepsSupervision(s, w, new_);
    case _ => MembershipKeepsSupervision(s, x);
  }

  lemma ProvidersKeepEnds(s: State, x: ProviderEvent)
    requires EndsInv(s.top, s.prov, s.routes) && AcceptsProviders(s, x)
    ensures EndsInv(s.top, ApplyProviders(s.prov, x, s.count + 1), s.routes)
  {
  }

  lemma RoutesKeepGates(s: State, x: RouteEvent)
    requires GatesInv(s.routes, s.count) && AcceptsRoutes(s, x) && LawfulRoutes(s, x)
    ensures GatesInv(ApplyRoutes(s.routes, x, s.count + 1), s.count + 1)
  {
  }

  lemma OwnedIsBoundBefore(s: State, ep: int)
    requires TopInv(s.top, s.count) && ProviderInv(s.prov, s.top, s.count) && EndpointOwned(s, ep)
    ensures BoundBefore(s.top, s.prov, ep, s.count + 1)
  {
    if ep in s.top.endpointOwner {
      var x := s.top.endpointOwner[ep];
      assert x in s.top.sessions && s.top.sessions[x].endpoint.Some?;
      assert s.top.sessions[x].endpoint.value.at <= s.count;
    } else {
      var x := s.prov.endpointOwner[ep];
      assert x in s.prov.table && s.prov.table[x].endpoint.Some?;
      assert s.prov.table[x].endpoint.value.at <= s.count;
    }
  }

  lemma RoutesKeepEnds(s: State, x: RouteEvent)
    requires TopInv(s.top, s.count) && ProviderInv(s.prov, s.top, s.count) && EndsInv(s.top, s.prov, s.routes)
    requires AcceptsRoutes(s, x) && LawfulRoutes(s, x)
    ensures EndsInv(s.top, s.prov, ApplyRoutes(s.routes, x, s.count + 1))
  {
    var z := ApplyRoutes(s.routes, x, s.count + 1);
    forall r | r in z
      ensures BoundBefore(s.top, s.prov, z[r].request.source, z[r].proposed)
      ensures BoundBefore(s.top, s.prov, z[r].request.destination, z[r].proposed)
    {
      if r !in s.routes {
        OwnedIsBoundBefore(s, z[r].request.source);
        OwnedIsBoundBefore(s, z[r].request.destination);
      }
    }
  }

  lemma RoutesKeepMail(s: State, x: RouteEvent)
    requires MailInv(s.mail, s.routes, s.count) && GatesInv(s.routes, s.count) && AcceptsRoutes(s, x) && LawfulRoutes(s, x)
    ensures MailInv(s.mail, ApplyRoutes(s.routes, x, s.count + 1), s.count + 1)
  {
  }

  lemma MailKeepsMail(s: State, x: MailEvent)
    requires MailInv(s.mail, s.routes, s.count) && GatesInv(s.routes, s.count) && AcceptsMail(s, x)
    ensures MailInv(ApplyMail(s.mail, x, s.count + 1), s.routes, s.count + 1)
  {
  }

  lemma RoutesKeepTools(s: State, x: RouteEvent)
    requires ToolInv(s.tools, s.routes, s.count) && GatesInv(s.routes, s.count) && AcceptsRoutes(s, x) && LawfulRoutes(s, x)
    ensures ToolInv(s.tools, ApplyRoutes(s.routes, x, s.count + 1), s.count + 1)
  {
    var z := ApplyRoutes(s.routes, x, s.count + 1);
    forall c | c in s.tools.calls ensures CallInv(s.tools, c, z, s.count + 1) {}
    forall c | c in s.tools.outcomes ensures OutcomeInv(s.tools, c, z, s.count + 1) {}
    forall c | c in s.tools.admissions ensures EvidenceInv(s.tools, c, s.count + 1) {}
  }

  lemma CallKeepsTools(s: State, x: ToolEvent)
    requires ToolInv(s.tools, s.routes, s.count) && GatesInv(s.routes, s.count) && AcceptsTools(s, x) && x.ToolCallRecorded?
    ensures ToolInv(ApplyTools(s.tools, s.top, s.routes, x, s.count + 1), s.routes, s.count + 1)
  {
  }

  lemma BindingKeepsTools(s: State, x: ToolEvent)
    requires ToolInv(s.tools, s.routes, s.count) && GatesInv(s.routes, s.count) && AcceptsTools(s, x) && x.ToolCallRouteBound?
    ensures ToolInv(ApplyTools(s.tools, s.top, s.routes, x, s.count + 1), s.routes, s.count + 1)
  {
  }

  lemma OutcomeKeepsTools(s: State, x: ToolEvent)
    requires ToolInv(s.tools, s.routes, s.count) && GatesInv(s.routes, s.count) && AcceptsTools(s, x) && x.ToolOutcome?
    ensures ToolInv(ApplyTools(s.tools, s.top, s.routes, x, s.count + 1), s.routes, s.count + 1)
  {
  }

  lemma EvidenceKeepsTools(s: State, x: ToolEvent)
    requires ToolInv(s.tools, s.routes, s.count) && GatesInv(s.routes, s.count) && AcceptsTools(s, x) && x.ResultDecided?
    ensures ToolInv(ApplyTools(s.tools, s.top, s.routes, x, s.count + 1), s.routes, s.count + 1)
  {
  }

  lemma ToolsKeepTools(s: State, x: ToolEvent)
    requires ToolInv(s.tools, s.routes, s.count) && GatesInv(s.routes, s.count) && AcceptsTools(s, x)
    ensures ToolInv(ApplyTools(s.tools, s.top, s.routes, x, s.count + 1), s.routes, s.count + 1)
  {
    hide ToolInv, AcceptsTools, ApplyTools, GatesInv;
    match x
    case ToolCallRecorded(_, _, _, _, _) => CallKeepsTools(s, x);
    case ToolCallRouteBound(_, _) => BindingKeepsTools(s, x);
    case ToolOutcome(_, _, _, _) => OutcomeKeepsTools(s, x);
    case ResultDecided(_, _, _, _, _) => EvidenceKeepsTools(s, x);
  }

  lemma MemoryKeepsMemory(s: State, x: MemoryEvent)
    requires MemoryInv(s.mem, s.count) && AcceptsMemory(s, x)
    ensures MemoryInv(ApplyMemory(s.mem, x, s.count + 1), s.count + 1)
  {
  }

  lemma WorkersKeepStaff(s: State, x: StaffEvent)
    requires StaffInv(s.staff, s.count) && AcceptsWorkers(s, x) && LawfulWorkers(s, x)
    ensures StaffInv(ApplyWorkers(s.staff, x, s.count + 1), s.count + 1)
  {
  }

  lemma SupervisionKeepsSupervision(s: State, x: SupervisionEvent)
    requires SupervisionInv(s.top, s.sup, s.staff.owner, s.count) && AcceptsSupervision(s, x)
    ensures SupervisionInv(s.top, ApplySupervision(s.sup, x, s.count + 1), s.staff.owner, s.count + 1)
  {
  }

  lemma LeaseKeepsLeases(s: State, x: MandateEvent)
    requires LeaseInv(s.auth, s.count) && AcceptsMandate(s, x) && LawfulMandate(s, x) && x.LeaseCreated?
    ensures LeaseInv(ApplyMandate(s.auth, x, s.count + 1), s.count + 1)
  {
  }

  lemma PermitKeepsLeases(s: State, x: MandateEvent)
    requires LeaseInv(s.auth, s.count) && AcceptsMandate(s, x) && x.PermitIssued?
    ensures LeaseInv(ApplyMandate(s.auth, x, s.count + 1), s.count + 1)
  {
  }

  lemma NewControlInv(s: State, x: MandateEvent)
    requires AcceptsMandate(s, x) && x.ControlAdmitted?
    ensures ControlInv(ApplyMandate(s.auth, x, s.count + 1), x.control, s.count + 1)
  {
  }

  /** A control that consumed its permit earlier keeps it. */
  lemma OldControlInv(s: State, x: MandateEvent, c: int)
    requires AcceptsMandate(s, x) && x.ControlAdmitted? && c in s.auth.controls && ControlInv(s.auth, c, s.count)
    ensures ControlInv(ApplyMandate(s.auth, x, s.count + 1), c, s.count + 1)
  {
  }

  lemma ControlKeepsLeases(s: State, x: MandateEvent)
    requires LeaseInv(s.auth, s.count) && AcceptsMandate(s, x) && x.ControlAdmitted?
    ensures LeaseInv(ApplyMandate(s.auth, x, s.count + 1), s.count + 1)
  {
    hide ControlInv, Fresh;
    var z := ApplyMandate(s.auth, x, s.count + 1);
    forall c | c in z.controls ensures ControlInv(z, c, s.count + 1) {
      if c == x.control {
        NewControlInv(s, x);
      } else {
        assert ControlInv(s.auth, c, s.count);
        OldControlInv(s, x, c);
      }
    }
  }

  lemma MandateKeepsLeases(s: State, x: MandateEvent)
    requires LeaseInv(s.auth, s.count) && AcceptsMandate(s, x) && LawfulMandate(s, x)
    ensures LeaseInv(ApplyMandate(s.auth, x, s.count + 1), s.count + 1)
  {
    hide LeaseInv, AcceptsMandate, LawfulMandate, ApplyMandate;
    match x
    case LeaseCreated(_, _, _, _) => LeaseKeepsLeases(s, x);
    case PermitIssued(_, _, _, _) => PermitKeepsLeases(s, x);
    case ControlAdmitted(_, _, _, _, _) => ControlKeepsLeases(s, x);
  }

  /** The set a command inspects and the predicate the invariant uses describe the same leases. */
  lemma LiveIsMembership(s: State, w: int, g: int)
    ensures forall l :: l in LiveLeases(s, w, g) <==> IsLive(s.auth, l, w, g)
    ensures forall p :: p in OpenPermits(s, w, g) <==> IsOpen(s.auth, p, w, g)
  {
    forall p ensures p in OpenPermits(s, w, g) <==> IsOpen(s.auth, p, w, g) {
      assert p == PermitRef(p.lease, p.ordinal);
    }
  }

  lemma LeaseKeepsSingleAuthority(s: State, x: MandateEvent)
    requires SingleAuthority(s.auth) && AcceptsMandate(s, x) && LawfulMandate(s, x) && x.LeaseCreated?
    ensures SingleAuthority(ApplyMandate(s.auth, x, s.count + 1))
  {
    LiveIsMembership(s, x.worker, x.goal);
    var z := ApplyMandate(s.auth, x, s.count + 1);
    assert forall l, w, g :: IsLive(z, l, w, g) ==> IsLive(s.auth, l, w, g) || (l == x.lease && w == x.worker && g == x.goal);
    assert forall p, w, g :: IsOpen(z, p, w, g) ==> IsOpen(s.auth, p, w, g);
  }

  lemma PermitKeepsSingleAuthority(s: State, x: MandateEvent)
    requires SingleAuthority(s.auth) && AcceptsMandate(s, x) && LawfulMandate(s, x) && x.PermitIssued?
    ensures SingleAuthority(ApplyMandate(s.auth, x, s.count + 1))
  {
    LiveIsMembership(s, x.worker, x.goal);
    var z := ApplyMandate(s.auth, x, s.count + 1);
    assert forall l, w, g :: IsLive(z, l, w, g) ==> IsLive(s.auth, l, w, g);
    assert forall p, w, g :: IsOpen(z, p, w, g) ==>
      IsOpen(s.auth, p, w, g) || (p == PermitRef(x.lease, x.ordinal) && w == x.worker && g == x.goal);
  }

  lemma ControlKeepsSingleAuthority(s: State, x: MandateEvent)
    requires SingleAuthority(s.auth) && x.ControlAdmitted?
    ensures SingleAuthority(ApplyMandate(s.auth, x, s.count + 1))
  {
    var z := ApplyMandate(s.auth, x, s.count + 1);
    assert forall l, w, g :: IsLive(z, l, w, g) ==> IsLive(s.auth, l, w, g);
    assert forall p, w, g :: IsOpen(z, p, w, g) ==> IsOpen(s.auth, p, w, g);
  }

  lemma MandateKeepsSingleAuthority(s: State, x: MandateEvent)
    requires SingleAuthority(s.auth) && LeaseInv(s.auth, s.count) && AcceptsMandate(s, x) && LawfulMandate(s, x)
    ensures SingleAuthority(ApplyMandate(s.auth, x, s.count + 1))
  {
    hide SingleAuthority, LeaseInv, AcceptsMandate, LawfulMandate, ApplyMandate;
    match x
    case LeaseCreated(_, _, _, _) => LeaseKeepsSingleAuthority(s, x);
    case PermitIssued(_, _, _, _) => PermitKeepsSingleAuthority(s, x);
    case ControlAdmitted(_, _, _, _, _) => ControlKeepsSingleAuthority(s, x);
  }

  lemma RoutesKeepCarriage(s: State, x: RouteEvent)
    requires CarriageInv(s.car, s.auth.controls, s.routes, s.count) && GatesInv(s.routes, s.count) && AcceptsRoutes(s, x)
    ensures CarriageInv(s.car, s.auth.controls, ApplyRoutes(s.routes, x, s.count + 1), s.count + 1)
  {
    var z := ApplyRoutes(s.routes, x, s.count + 1);
    forall r | r in s.car.controlOf
      ensures r in z && z[r].request.category.OrchestrationControl?
      ensures z[r].dispatched.Some? ==> s.car.routeOf[s.car.controlOf[r]].at < z[r].dispatched.value
    {
      var c := s.car.controlOf[r];
      assert c in s.car.routeOf && s.car.routeOf[c].at <= s.count;
    }
    forall r | r in s.car.deliveries
      ensures r in z && z[r].dispatched == Some(s.car.deliveries[r].dispatch)
    {
      assert r in s.car.controlOf;
    }
  }

  lemma MandateKeepsCarriage(s: State, x: MandateEvent)
    requires CarriageInv(s.car, s.auth.controls, s.routes, s.count) && AcceptsMandate(s, x)
    ensures CarriageInv(s.car, ApplyMandate(s.auth, x, s.count + 1).controls, s.routes, s.count + 1)
  {
  }

  lemma IssuerKeepsCarriage(s: State, x: CarriageEvent)
    requires CarriageInv(s.car, s.auth.controls, s.routes, s.count) && GatesInv(s.routes, s.count)
    requires LeaseInv(s.auth, s.count) && AcceptsCarriage(s, x) && x.IssuerBound?
    ensures CarriageInv(ApplyCarriage(s.car, s.top.active, s.auth, x, s.count + 1), s.auth.controls, s.routes, s.count + 1)
  {
  }

  lemma BindingKeepsCarriage(s: State, x: CarriageEvent)
    requires CarriageInv(s.car, s.auth.controls, s.routes, s.count) && GatesInv(s.routes, s.count)
    requires LeaseInv(s.auth, s.count) && AcceptsCarriage(s, x) && x.ControlRouteBound?
    ensures CarriageInv(ApplyCarriage(s.car, s.top.active, s.auth, x, s.count + 1), s.auth.controls, s.routes, s.count + 1)
  {
  }

  lemma DeliveryKeepsCarriage(s: State, x: CarriageEvent)
    requires CarriageInv(s.car, s.auth.controls, s.routes, s.count) && GatesInv(s.routes, s.count)
    requires LeaseInv(s.auth, s.count) && AcceptsCarriage(s, x) && x.ControlDelivered?
    ensures CarriageInv(ApplyCarriage(s.car, s.top.active, s.auth, x, s.count + 1), s.auth.controls, s.routes, s.count + 1)
  {
  }

  lemma AckKeepsCarriage(s: State, x: CarriageEvent)
    requires CarriageInv(s.car, s.auth.controls, s.routes, s.count) && GatesInv(s.routes, s.count)
    requires LeaseInv(s.auth, s.count) && AcceptsCarriage(s, x) && x.ControlAcked?
    ensures CarriageInv(ApplyCarriage(s.car, s.top.active, s.auth, x, s.count + 1), s.auth.controls, s.routes, s.count + 1)
  {
  }

  lemma CarriageKeepsCarriage(s: State, x: CarriageEvent)
    requires CarriageInv(s.car, s.auth.controls, s.routes, s.count) && GatesInv(s.routes, s.count)
    requires LeaseInv(s.auth, s.count) && AcceptsCarriage(s, x)
    ensures CarriageInv(ApplyCarriage(s.car, s.top.active, s.auth, x, s.count + 1), s.auth.controls, s.routes, s.count + 1)
  {
    hide CarriageInv, AcceptsCarriage, ApplyCarriage, GatesInv, LeaseInv;
    match x
    case IssuerBound(_, _) => IssuerKeepsCarriage(s, x);
    case ControlRouteBound(_, _) => BindingKeepsCarriage(s, x);
    case ControlDelivered(_, _, _, _, _, _, _) => DeliveryKeepsCarriage(s, x);
    case ControlAcked(_, _, _, _, _) => AckKeepsCarriage(s, x);
  }

  lemma MandateKeepsWork(s: State, x: MandateEvent)
    requires WorkInv(s.work, s.car, s.auth.controls, s.count) && AcceptsMandate(s, x)
    ensures WorkInv(s.work, s.car, ApplyMandate(s.auth, x, s.count + 1).controls, s.count + 1)
  {
  }

  lemma CarriageKeepsWork(s: State, x: CarriageEvent)
    requires WorkInv(s.work, s.car, s.auth.controls, s.count) && AcceptsCarriage(s, x)
    ensures WorkInv(s.work, ApplyCarriage(s.car, s.top.active, s.auth, x, s.count + 1), s.auth.controls, s.count + 1)
  {
  }

  lemma WorkersKeepWork(s: State, x: StaffEvent)
    requires WorkInv(s.work, s.car, s.auth.controls, s.count) && AcceptsWorkers(s, x)
    ensures WorkInv(MarkTransition(s.work, s.staff, x, s.count + 1), s.car, s.auth.controls, s.count + 1)
  {
  }

  lemma StartKeepsWork(s: State, x: WorkEvent)
    requires WorkInv(s.work, s.car, s.auth.controls, s.count) && CarriageInv(s.car, s.auth.controls, s.routes, s.count)
    requires AcceptsWork(s, x) && x.ActionStarted?
    ensures WorkInv(ApplyWork(s.work, x, s.count + 1), s.car, s.auth.controls, s.count + 1)
  {
  }

  lemma ResultKeepsWork(s: State, x: WorkEvent)
    requires WorkInv(s.work, s.car, s.auth.controls, s.count) && CarriageInv(s.car, s.auth.controls, s.routes, s.count)
    requires AcceptsWork(s, x) && x.ActionResult?
    ensures WorkInv(ApplyWork(s.work, x, s.count + 1), s.car, s.auth.controls, s.count + 1)
  {
  }

  lemma ExecutionKeepsWork(s: State, x: WorkEvent)
    requires WorkInv(s.work, s.car, s.auth.controls, s.count) && CarriageInv(s.car, s.auth.controls, s.routes, s.count)
    requires AcceptsWork(s, x) && x.ExecutionStarted?
    ensures WorkInv(ApplyWork(s.work, x, s.count + 1), s.car, s.auth.controls, s.count + 1)
  {
  }

  lemma WorkKeepsWork(s: State, x: WorkEvent)
    requires WorkInv(s.work, s.car, s.auth.controls, s.count) && CarriageInv(s.car, s.auth.controls, s.routes, s.count)
    requires AcceptsWork(s, x)
    ensures WorkInv(ApplyWork(s.work, x, s.count + 1), s.car, s.auth.controls, s.count + 1)
  {
    hide WorkInv, AcceptsWork, ApplyWork, CarriageInv;
    match x
    case ActionStarted(_, _, _, _, _, _, _, _) => StartKeepsWork(s, x);
    case ActionResult(_, _, _, _, _, _, _, _, _) => ResultKeepsWork(s, x);
    case ExecutionStarted(_, _, _, _, _, _, _, _, _) => ExecutionKeepsWork(s, x);
  }

  lemma ProvidersKeepProviders(s: State, x: ProviderEvent)
    requires ProviderInv(s.prov, s.top, s.count) && AcceptsProviders(s, x)
    ensures ProviderInv(ApplyProviders(s.prov, x, s.count + 1), s.top, s.count + 1)
  {
  }

  lemma TopologyKeepsProviders(s: State, x: TopEvent)
    requires ProviderInv(s.prov, s.top, s.count) && AcceptsTopology(s, x)
    ensures ProviderInv(s.prov, ApplyTop(s.top, x, s.count + 1), s.count + 1)
  {
  }

  lemma WorkersKeepSupervision(s: State, x: StaffEvent)
    requires SupervisionInv(s.top, s.sup, s.staff.owner, s.count)
    ensures SupervisionInv(s.top, s.sup, ApplyWorkers(s.staff, x, s.count + 1).owner, s.count + 1)
  {
  }

  lemma RoutingGrows(s: State, n: int)
    requires TopInv(s.top, n) && ProviderInv(s.prov, s.top, n) && GatesInv(s.routes, n) && MailInv(s.mail, s.routes, n)
    ensures TopInv(s.top, n + 1) && ProviderInv(s.prov, s.top, n + 1) && GatesInv(s.routes, n + 1)
    ensures MailInv(s.mail, s.routes, n + 1)
  {
  }

  lemma ToolsGrow(s: State, n: int)
    requires ToolInv(s.tools, s.routes, n)
    ensures ToolInv(s.tools, s.routes, n + 1)
  {
  }

  lemma StaffGrows(s: State, n: int)
    requires MemoryInv(s.mem, n) && StaffInv(s.staff, n) && SupervisionInv(s.top, s.sup, s.staff.owner, n)
    requires LeaseInv(s.auth, n)
    ensures MemoryInv(s.mem, n + 1) && StaffInv(s.staff, n + 1) && SupervisionInv(s.top, s.sup, s.staff.owner, n + 1)
    ensures LeaseInv(s.auth, n + 1)
  {
  }

  lemma ControlsGrow(s: State, n: int)
    requires CarriageInv(s.car, s.auth.controls, s.routes, n) && WorkInv(s.work, s.car, s.auth.controls, n)
    ensures CarriageInv(s.car, s.auth.controls, s.routes, n + 1) && WorkInv(s.work, s.car, s.auth.controls, n + 1)
  {
  }

  lemma InvGrows(s: State, n: int)
    requires InvUpTo(s, n)
    ensures InvUpTo(s, n + 1)
  {
    hide TopInv, ProviderInv, GatesInv, MailInv, ToolInv, MemoryInv, StaffInv, SupervisionInv, LeaseInv, CarriageInv, WorkInv;
    RoutingGrows(s, n);
    ToolsGrow(s, n);
    StaffGrows(s, n);
    ControlsGrow(s, n);
  }

  /** One admitted event keeps the whole invariant. */
  lemma KeepsInv(s: State, e: Event)
    requires Inv(s) && Admits(s, e)
    ensures Inv(Apply(s, e))
  {
    hide EndpointMaps, HomeMaps, BindingMaps, ProviderInv, GatesInv, EndsInv, MailInv, ToolInv, MemoryInv, StaffInv,
      SupervisionInv, LeaseInv, SingleAuthority, CarriageInv, WorkInv;
    hide AcceptsTopology, AcceptsProviders, AcceptsRoutes, AcceptsMail, AcceptsTools, AcceptsMemory, AcceptsWorkers,
      AcceptsSupervision, AcceptsMandate, AcceptsCarriage, AcceptsWork;
    hide LawfulRoutes, LawfulMemory, LawfulWorkers, LawfulSeats, LawfulMandate;
    hide ApplyTop, ApplyProviders, ApplyRoutes, ApplyMail, ApplyTools, ApplyMemory, ApplyWorkers, MarkTransition,
      ApplySupervision, ApplyMandate, ApplyCarriage, ApplyWork;
    InvGrows(s, s.count);
    match e
    case Top(x) =>
      TopologyKeepsEndpoints(s, x);
      TopologyKeepsHomes(s, x);
      TopologyKeepsBindings(s, x);
      TopologyKeepsProviders(s, x);
      TopologyKeepsEnds(s, x);
      TopologyKeepsSupervision(s, x);
    case Prov(x) =>
      ProvidersKeepProviders(s, x);
      ProvidersKeepEnds(s, x);
    case Routing(x) =>
      RoutesKeepGates(s, x);
      RoutesKeepEnds(s, x);
      RoutesKeepMail(s, x);
      RoutesKeepTools(s, x);
      RoutesKeepCarriage(s, x);
    case Post(x) => MailKeepsMail(s, x);
    case Tool(x) => ToolsKeepTools(s, x);
    case Recall(x) => MemoryKeepsMemory(s, x);
    case Staff(x) =>
      WorkersKeepStaff(s, x);
      WorkersKeepSupervision(s, x);
      WorkersKeepWork(s, x);
    case Oversight(x) => SupervisionKeepsSupervision(s, x);
    case Grant(x) =>
      MandateKeepsLeases(s, x);
      MandateKeepsSingleAuthority(s, x);
      MandateKeepsCarriage(s, x);
      MandateKeepsWork(s, x);
    case Carry(x) =>
      CarriageKeepsCarriage(s, x);
      CarriageKeepsWork(s, x);
    case Doing(x) => WorkKeepsWork(s, x);
  }
}
