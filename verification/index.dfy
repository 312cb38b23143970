/** The other direction: whatever the replayed state records was appended, at the recorded place. */
module Index {
  import opened Common
  import opened Events
  import opened Core
  import opened Replaying
  import opened Writer
  import opened Invariant
  import opened Safety
  import opened Log

  /** The event with sequence number `at` is `e`. */
  predicate Holds(j: Journal, at: int, e: Event) {
    1 <= at <= |j| && j[at - 1] == e
  }

  ghost predicate BackedTop(j: Journal, t: Topology) {
    forall x {:trigger x in t.sessions} | x in t.sessions ::
      && (t.sessions[x].endpoint.Some? ==>
            Holds(j, t.sessions[x].endpoint.value.at, Top(SessionEndpointBound(x, t.sessions[x].endpoint.value.id))))
  }

  ghost predicate BackedProviders(j: Journal, p: Providers) {
    forall x {:trigger x in p.table} | x in p.table ::
      && Holds(j, p.table[x].registered, Prov(ProviderRegistered(x, p.table[x].name)))
      && (p.table[x].endpoint.Some? ==>
            Holds(j, p.table[x].endpoint.value.at, Prov(ProviderEndpointBound(x, p.table[x].endpoint.value.id))))
  }

  ghost predicate BackedRoutes(j: Journal, routes: map<int, Route>) {
    forall r {:trigger r in routes} | r in routes ::
      && Holds(j, routes[r].proposed, Routing(RouteProposed(routes[r].request, routes[r].policy)))
      && (routes[r].dispatched.Some? ==>
            && routes[r].gate.Dispatched?
            && Holds(j, routes[r].dispatched.value, Routing(RouteDispatched(r, routes[r].gate.grant))))
  }

  ghost predicate BackedMail(j: Journal, m: Mail) {
    && (forall r {:trigger r in m.payloads} | r in m.payloads ::
          var p := m.payloads[r];
          Holds(j, p.at, Post(PayloadAttached(p.id, r, p.sender, p.receiver, p.text))))
    && (forall r {:trigger r in m.deliveries} | r in m.deliveries ::
          var d := m.deliveries[r];
          Holds(j, d.at, Post(RouteDelivered(r, d.payload, d.sender, d.receiver, d.senderSession, d.receiverSession, d.dispatch))))
  }

  ghost predicate BackedTools(j: Journal, k: Tools) {
    && (forall c {:trigger c in k.calls} | c in k.calls ::
          var a := k.calls[c];
          && Holds(j, a.recorded, Tool(ToolCallRecorded(c, a.session, a.provider, a.operation, a.arguments)))
          && (a.route.Some? ==> Holds(j, a.route.value.at, Tool(ToolCallRouteBound(c, a.route.value.id)))))
    && (forall c {:trigger c in k.outcomes} | c in k.outcomes ::
          var o := k.outcomes[c];
          Holds(j, o.observed, Tool(ToolOutcome(c, o.route, o.kind, o.text))))
  }

  ghost predicate BackedMemory(j: Journal, m: Memory) {
    && (forall a {:trigger a in m.artifacts} | a in m.artifacts ::
          Holds(j, m.artifacts[a].at, Recall(MemoryRecorded(a, m.artifacts[a].conversation, m.artifacts[a].text))))
    && (forall a {:trigger a in m.successor} | a in m.successor ::
          Holds(j, m.successor[a].at, Recall(MemorySuperseded(a, m.successor[a].id))))
  }

  ghost predicate BackedMandate(j: Journal, a: Mandate) {
    && (forall l {:trigger l in a.leases} | l in a.leases ::
          var x := a.leases[l];
          && Holds(j, x.created, Grant(LeaseCreated(l, x.worker, x.goal, x.allowance)))
          && (forall i | 0 <= i < |x.permits| ::
                Holds(j, x.permits[i].issued, Grant(PermitIssued(l, x.worker, x.goal, i + 1)))))
    && (forall c {:trigger c in a.controls} | c in a.controls ::
          var x := a.controls[c];
          Holds(j, x.at, Grant(ControlAdmitted(c, x.worker, x.goal, x.order, x.permit))))
  }

  ghost predicate BackedCarriage(j: Journal, k: Carriage) {
    && (forall c {:trigger c in k.issuers} | c in k.issuers ::
          Holds(j, k.issuers[c].at, Carry(IssuerBound(c, k.issuers[c].id))))
    && (forall c {:trigger c in k.routeOf} | c in k.routeOf ::
          Holds(j, k.routeOf[c].at, Carry(ControlRouteBound(c, k.routeOf[c].route))))
    && (forall r {:trigger r in k.deliveries} | r in k.deliveries ::
          var d := k.deliveries[r];
          Holds(j, d.at, Carry(ControlDelivered(d.control, r, d.worker, d.conversation, d.session, d.controller, d.dispatch))))
    && (forall r {:trigger r in k.acks} | r in k.acks ::
          && r in k.deliveries
          && var d := k.deliveries[r];
             Holds(j, k.acks[r].at, Carry(ControlAcked(d.control, r, d.worker, d.conversation, d.at))))
  }

  ghost predicate BackedWork(j: Journal, k: Work) {
    && (forall r {:trigger r in k.actions} | r in k.actions ::
          var a := k.actions[r];
          && Holds(j, a.started, Doing(ActionStarted(a.control, r, a.worker, a.conversation, a.goal, a.order, a.acked, a.phase)))
          && (a.transition.Some? ==>
                && ActionOf(a.order).Some? && a.resulting.Some?
                && Holds(j, a.transition.value,
                         Staff(Transition(a.worker, a.goal, ActionOf(a.order).value, Some(Cause(a.control, r, a.started))))))
          && (a.result.Some? ==>
                && a.transition.Some?
                && Holds(j, a.result.value,
                         Doing(ActionResult(a.control, r, a.worker, a.conversation, a.goal, a.order, a.started,
                                            a.transition.value, a.resulting.value)))))
    && (forall r {:trigger r in k.executions} | r in k.executions ::
          var x := k.executions[r];
          Holds(j, x.started, Doing(ExecutionStarted(x.control, r, x.worker, x.conversation, x.goal, x.lease, x.ordinal,
                                                     x.acked, x.turn))))
  }

  ghost predicate Backed(j: Journal, s: State) {
    && BackedTop(j, s.top) && BackedProviders(j, s.prov) && BackedRoutes(j, s.routes) && BackedMail(j, s.mail)
    && BackedTools(j, s.tools) && BackedMemory(j, s.mem) && BackedMandate(j, s.auth) && BackedCarriage(j, s.car)
    && BackedWork(j, s.work)
  }

  /** Appending leaves every event where it was. */
  lemma HoldsLonger(j: Journal, e: Event, s: State)
    requires Backed(j, s)
    ensures Backed(j + [e], s)
  {
    forall at, x | Holds(j, at, x) ensures Holds(j + [e], at, x) {}
  }

  lemma TopBacked(j: Journal, s: State, x: TopEvent)
    requires BackedTop(j, s.top) && Holds(j, s.count + 1, Top(x))
    ensures BackedTop(j, ApplyTop(s.top, x, s.count + 1))
  {
  }

  lemma RoutesBacked(j: Journal, s: State, x: RouteEvent)
    requires BackedRoutes(j, s.routes) && Holds(j, s.count + 1, Routing(x)) && AcceptsRoutes(s, x)
    ensures BackedRoutes(j, ApplyRoutes(s.routes, x, s.count + 1))
  {
  }

  lemma ToolsBacked(j: Journal, s: State, x: ToolEvent)
    requires BackedTools(j, s.tools) && Holds(j, s.count + 1, Tool(x)) && AcceptsTools(s, x)
    ensures BackedTools(j, ApplyTools(s.tools, s.top, s.routes, x, s.count + 1))
  {
  }

  lemma MandateBacked(j: Journal, s: State, x: MandateEvent)
    requires BackedMandate(j, s.auth) && Holds(j, s.count + 1, Grant(x)) && AcceptsMandate(s, x)
    ensures BackedMandate(j, ApplyMandate(s.auth, x, s.count + 1))
  {
  }

  lemma CarriageBacked(j: Journal, s: State, x: CarriageEvent)
    requires BackedCarriage(j, s.car) && Holds(j, s.count + 1, Carry(x)) && AcceptsCarriage(s, x)
    ensures BackedCarriage(j, ApplyCarriage(s.car, s.top.active, s.auth, x, s.count + 1))
  {
  }

  lemma WorkBacked(j: Journal, s: State, x: WorkEvent)
    requires BackedWork(j, s.work) && Holds(j, s.count + 1, Doing(x)) && AcceptsWork(s, x)
    ensures BackedWork(j, ApplyWork(s.work, x, s.count + 1))
  {
  }

  lemma TransitionBacked(j: Journal, s: State, x: StaffEvent)
    requires BackedWork(j, s.work) && Holds(j, s.count + 1, Staff(x)) && AcceptsWorkers(s, x)
    ensures BackedWork(j, MarkTransition(s.work, s.staff, x, s.count + 1))
  {
  }

  lemma SimpleBacked(j: Journal, s: State, e: Event)
    requires Holds(j, s.count + 1, e) && Accepts(s, e)
    requires BackedProviders(j, s.prov) && BackedMail(j, s.mail) && BackedMemory(j, s.mem)
    ensures e.Prov? ==> BackedProviders(j, ApplyProviders(s.prov, e.prov, s.count + 1))
    ensures e.Post? ==> BackedMail(j, ApplyMail(s.mail, e.post, s.count + 1))
    ensures e.Recall? ==> BackedMemory(j, ApplyMemory(s.mem, e.recall, s.count + 1))
  {
  }

  lemma StepBacked(j: Journal, s: State, e: Event)
    requires Backed(j, s) && Accepts(s, e) && s.count == |j|
    ensures Backed(j + [e], Apply(s, e))
  {
    var k := j + [e];
    HoldsLonger(j, e, s);
    assert Holds(k, s.count + 1, e);
    SimpleBacked(k, s, e);
    hide BackedTop, BackedProviders, BackedRoutes, BackedMail, BackedTools, BackedMemory, BackedMandate, BackedCarriage, BackedWork;
    hide ApplyTop, ApplyProviders, ApplyRoutes, ApplyMail, ApplyTools, ApplyMemory, ApplyWorkers, MarkTransition,
      ApplySupervision, ApplyMandate, ApplyCarriage, ApplyWork, Holds;
    hide AcceptsTopology, AcceptsProviders, AcceptsRoutes, AcceptsMail, AcceptsTools, AcceptsMemory, AcceptsWorkers,
      AcceptsSupervision, AcceptsMandate, AcceptsCarriage, AcceptsWork;
    match e
    case Top(x) => TopBacked(k, s, x);
    case Routing(x) => RoutesBacked(k, s, x);
    case Tool(x) => ToolsBacked(k, s, x);
    case Staff(x) => TransitionBacked(k, s, x);
    case Grant(x) => MandateBacked(k, s, x);
    case Carry(x) => CarriageBacked(k, s, x);
    case Doing(x) => WorkBacked(k, s, x);
    case _ =>
  }

  lemma EmptyBacked()
    ensures Backed([], EMPTY)
  {
  }

  /** Everything the state replayed from a legal journal records is an event of that journal. */
  lemma {:induction false} StateBacked(j: Journal)
    requires Legal(j)
    ensures Backed(j, Folded(j))
  {
    hide Legal, Accepts, Apply, Inv, Admits, Backed;
    if j == [] {
      EmptyBacked();
    } else {
      var k := j[..|j| - 1];
      LegalPrefix(j, |j| - 1);
      LegalReplays(k);
      StateBacked(k);
      AdmittedAt(j, |j| - 1);
      Counted(Folded(k), j[|j| - 1]);
      StepBacked(k, Folded(k), j[|j| - 1]);
      assert k + [j[|j| - 1]] == j;
    }
  }
}
