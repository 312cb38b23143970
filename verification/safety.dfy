/** Every event of every plan is admitted, so no run ever leaves a journal the store rejects. */
module Safety {
  import opened Common
  import opened Events
  import opened Core
  import opened Replaying
  import opened Writer
  import opened Invariant

  /** Each event of the sequence is admitted after the ones before it. */
  ghost predicate AdmitsAll(s: State, events: seq<Event>)
    decreases |events|
  {
    events == [] || (Admits(s, events[0]) && AdmitsAll(Apply(s, events[0]), events[1..]))
  }

  lemma AdmitsFirst(s: State, e: Event, rest: seq<Event>)
    requires Admits(s, e) && AdmitsAll(Apply(s, e), rest)
    ensures AdmitsAll(s, [e] + rest)
  {
    hide Admits, Apply;
    assert ([e] + rest)[1..] == rest;
  }

  lemma AdmitsOne(s: State, e: Event)
    requires Admits(s, e)
    ensures AdmitsAll(s, [e])
  {
    hide Admits, Apply;
    assert [e][1..] == [];
  }

  // ---- Topology and providers

  lemma BindTopologyAdmitted(s: State, v: int, box: int, session: int)
    requires TopInv(s.top, s.count) && PlanBindTopology(s, v, box, session).Some?
    ensures AdmitsAll(s, PlanBindTopology(s, v, box, session).value)
  {
    hide EndpointMaps, BindingMaps;
    var e1, e2, e3 := Top(SessionRegistered(session)), Top(ContainerCreated(box, session)), Top(ConversationBound(v, box));
    assert session !in s.top.home;
    AdmitsOne(Apply(Apply(s, e1), e2), e3);
    AdmitsFirst(Apply(s, e1), e2, [e3]);
    AdmitsFirst(s, e1, [e2] + [e3]);
    assert [e1, e2, e3] == [e1] + ([e2] + [e3]);
  }

  lemma BindEndpointAdmitted(s: State, v: int, session: int, ep: int)
    requires PlanBindEndpoint(s, v, session, ep).Some?
    ensures AdmitsAll(s, PlanBindEndpoint(s, v, session, ep).value)
  {
    AdmitsOne(s, Top(SessionEndpointBound(session, ep)));
  }

  lemma BindProviderAdmitted(s: State, p: int, ep: int)
    requires PlanBindProvider(s, p, ep).Some?
    ensures AdmitsAll(s, PlanBindProvider(s, p, ep).value)
  {
    AdmitsOne(s, Prov(ProviderEndpointBound(p, ep)));
  }

  // ---- Session messages

  lemma EntryOwned(t: Topology, n: int, v: int)
    requires TopInv(t, n) && EntryOf(t, v).Some?
    ensures var e := EntryOf(t, v).value;
      && e.endpoint in t.endpointOwner && t.endpointOwner[e.endpoint] == e.session && e.session in t.sessions
      && t.sessions[e.session].endpoint.Some? && t.sessions[e.session].endpoint.value.at <= n
      && e.session in t.home && t.home[e.session] in t.tenant && t.tenant[t.home[e.session]] == v
  {
    var x := EntryOf(t, v).value.session;
    assert x in t.sessions;
  }

  /** The inverse-map lookup is exactly the directory search for an entry with this endpoint. */
  lemma ResolveFinds(t: Topology, n: int, ep: int, v: int)
    requires TopInv(t, n) && EntryOf(t, v).Some? && EntryOf(t, v).value.endpoint == ep
    ensures Resolve(t, ep) == EntryOf(t, v)
  {
    EntryOwned(t, n, v);
  }

  lemma ProposeMessageAdmitted(s: State, r: int, a: int, b: int)
    requires TopInv(s.top, s.count) && PlanProposeMessage(s, r, a, b).Some?
    ensures AdmitsAll(s, PlanProposeMessage(s, r, a, b).value)
  {
    EntryOwned(s.top, s.count, a);
    EntryOwned(s.top, s.count, b);
    AdmitsOne(s, PlanProposeMessage(s, r, a, b).value[0]);
  }

  lemma AttachPayloadAdmitted(s: State, p: int, r: int, text: string)
    requires PlanAttachPayload(s, p, r, text).Some?
    ensures AdmitsAll(s, PlanAttachPayload(s, p, r, text).value)
  {
    AdmitsOne(s, PlanAttachPayload(s, p, r, text).value[0]);
  }

  lemma DecideMessageAdmitted(s: State, r: int, d: RouteDecision)
    requires PlanDecideMessage(s, r, d).Some?
    ensures AdmitsAll(s, PlanDecideMessage(s, r, d).value)
  {
    AdmitsOne(s, Routing(RouteDecided(r, d)));
  }

  /** Current leaves of different conversations are different sessions. */
  lemma DifferentSeats(t: Topology, n: int, a: int, b: int)
    requires TopInv(t, n) && Resolve(t, a).Some? && Resolve(t, b).Some?
    requires Resolve(t, a).value.conversation != Resolve(t, b).value.conversation
    ensures Resolve(t, a).value.session != Resolve(t, b).value.session
  {
    EntryOwned(t, n, Resolve(t, a).value.conversation);
    EntryOwned(t, n, Resolve(t, b).value.conversation);
  }

  lemma DeliverMessageAdmitted(s: State, r: int)
    requires TopInv(s.top, s.count) && GatesInv(s.routes, s.count) && MailInv(s.mail, s.routes, s.count)
    requires PlanDeliverMessage(s, r).Some?
    ensures AdmitsAll(s, PlanDeliverMessage(s, r).value)
  {
    var plan := PlanDeliverMessage(s, r).value;
    DifferentSeats(s.top, s.count, s.routes[r].request.source, s.routes[r].request.destination);
    if s.routes[r].gate.Allowed? {
      var dispatched := Apply(s, plan[0]);
      AdmitsOne(dispatched, plan[1]);
      AdmitsFirst(s, plan[0], [plan[1]]);
      assert plan == [plan[0]] + [plan[1]];
    } else {
      AdmitsOne(s, plan[0]);
    }
  }

  // ---- Tool calls

  lemma OwnedIsProposed(s: State, r: int)
    requires ToolInv(s.tools, s.routes, s.count)
    ensures r in s.tools.routeOwner ==> r in s.routes
  {
    if r in s.tools.routeOwner {
      assert CallInv(s.tools, s.tools.routeOwner[r], s.routes, s.count);
    }
  }

  lemma CallBindingAccepted(s: State, id: int, r: int)
    requires AcceptsTools(s, ToolCallRouteBound(id, r))
    ensures Admits(s, Tool(ToolCallRouteBound(id, r)))
  {
  }

  lemma ProposeCallAdmitted(s: State, id: int, r: int, v: int, p: int, operation: string, arguments: string,
                            policy: RoutePolicy)
    requires TopInv(s.top, s.count) && ProviderInv(s.prov, s.top, s.count)
    requires ToolInv(s.tools, s.routes, s.count)
    requires PlanProposeCall(s, id, r, v, p, operation, arguments, policy).Some?
    ensures AdmitsAll(s, PlanProposeCall(s, id, r, v, p, operation, arguments, policy).value)
  {
    var plan := PlanProposeCall(s, id, r, v, p, operation, arguments, policy).value;
    EntryOwned(s.top, s.count, v);
    assert p in s.prov.table;
    var recorded := Apply(s, plan[0]);
    var proposed := Apply(recorded, plan[1]);
    OwnedIsProposed(s, r);
    CallBindingAccepted(proposed, id, r);
    AdmitsOne(proposed, plan[2]);
    AdmitsFirst(recorded, plan[1], [plan[2]]);
    AdmitsFirst(s, plan[0], [plan[1]] + [plan[2]]);
    assert plan == [plan[0]] + ([plan[1]] + [plan[2]]);
  }

  lemma DecideCallAdmitted(s: State, r: int, d: RouteDecision)
    requires Decidable(s, r, d, ToolCall)
    ensures AdmitsAll(s, [Routing(RouteDecided(r, d))])
  {
    AdmitsOne(s, Routing(RouteDecided(r, d)));
  }

  lemma ExecuteAdmitted(s: State, x: Executor, r: int, text: string)
    requires GatesInv(s.routes, s.count) && ToolInv(s.tools, s.routes, s.count)
    requires PlanExecute(s, x, r, text).Some?
    ensures AdmitsAll(s, PlanExecute(s, x, r, text).value)
  {
    var plan := PlanExecute(s, x, r, text).value;
    assert r in s.tools.routeOwner && s.tools.routeOwner[r] in s.tools.calls;
    assert CallInv(s.tools, s.tools.routeOwner[r], s.routes, s.count);
    if |plan| == 1 {
      AdmitsOne(s, plan[0]);
    } else {
      AdmitsOne(Apply(s, plan[0]), plan[1]);
      AdmitsFirst(s, plan[0], [plan[1]]);
      assert plan == [plan[0]] + [plan[1]];
    }
  }

  // ---- Memory, workers and supervision

  lemma DecideMemoryAdmitted(s: State, m: int, v: int, verdict: MemoryDecision)
    requires PlanDecideMemory(s, m, v, verdict).Some?
    ensures AdmitsAll(s, PlanDecideMemory(s, m, v, verdict).value)
  {
    AdmitsOne(s, Recall(MemoryDecided(m, v, verdict)));
  }

  lemma SupersedeMemoryAdmitted(s: State, older: int, newer: int)
    requires PlanSupersedeMemory(s, older, newer).Some?
    ensures AdmitsAll(s, PlanSupersedeMemory(s, older, newer).value)
  {
    AdmitsOne(s, Recall(MemorySuperseded(older, newer)));
  }

  lemma BindWorkerIdAdmitted(s: State, v: int, w: int)
    requires PlanBindWorkerId(s, v, w).Some?
    ensures AdmitsAll(s, PlanBindWorkerId(s, v, w).value)
  {
    AdmitsOne(s, Staff(WorkerBound(v, w)));
  }

  lemma AssignGoalAdmitted(s: State, w: int, goal: int)
    requires PlanAssignGoal(s, w, goal).Some?
    ensures AdmitsAll(s, PlanAssignGoal(s, w, goal).value)
  {
    AdmitsOne(s, Staff(GoalAssigned(w, goal)));
  }

  lemma MoveWorkerAdmitted(s: State, w: int, goal: int, action: WorkerAction)
    requires PlanMoveWorker(s, w, goal, action).Some?
    ensures AdmitsAll(s, PlanMoveWorker(s, w, goal, action).value)
  {
    AdmitsOne(s, Staff(Transition(w, goal, action, None)));
  }

  lemma BindWorkerSessionAdmitted(s: State, v: int, w: int)
    requires SupervisionInv(s.top, s.sup, s.staff.owner, s.count)
    requires PlanBindWorkerSession(s, v, w).Some?
    ensures AdmitsAll(s, PlanBindWorkerSession(s, v, w).value)
  {
    AdmitsOne(s, PlanBindWorkerSession(s, v, w).value[0]);
  }

  lemma DesignateControllerAdmitted(s: State, v: int)
    requires PlanDesignateController(s, v).Some?
    ensures AdmitsAll(s, PlanDesignateController(s, v).value)
  {
    AdmitsOne(s, PlanDesignateController(s, v).value[0]);
  }

  lemma SuperviseAdmitted(s: State, cv: int, wv: int)
    requires SupervisionInv(s.top, s.sup, s.staff.owner, s.count) && PlanSupervise(s, cv, wv).Some?
    ensures AdmitsAll(s, PlanSupervise(s, cv, wv).value)
  {
    var controller, w := SeatOf(s.top, cv).value.session, s.staff.bindings[wv];
    assert controller in s.sup.designated && w in s.top.active;
    assert s.top.active[w] in s.top.sessions && s.top.sessions[s.top.active[w]].worker.Some?;
    AdmitsOne(s, PlanSupervise(s, cv, wv).value[0]);
  }

  // ---- Continuation authority and controls

  lemma GrantLeaseAdmitted(s: State, cv: int, wv: int, l: int, allowance: int)
    requires PlanGrantLease(s, cv, wv, l, allowance).Some?
    ensures AdmitsAll(s, PlanGrantLease(s, cv, wv, l, allowance).value)
  {
    AdmitsOne(s, PlanGrantLease(s, cv, wv, l, allowance).value[0]);
  }

  lemma DecideControlAdmitted(s: State, r: int, d: RouteDecision)
    requires PlanDecideControl(s, r, d).Some?
    ensures AdmitsAll(s, PlanDecideControl(s, r, d).value)
  {
    AdmitsOne(s, Routing(RouteDecided(r, d)));
  }

  /** A control is acknowledged over the one route that delivered it. */
  lemma AckedIsDelivered(s: State, r: int)
    requires CarriageInv(s.car, s.auth.controls, s.routes, s.count) && r in s.car.deliveries
    ensures s.car.deliveries[r].control in s.car.ackedOn ==> r in s.car.acks
  {
    var c := s.car.deliveries[r].control;
    assert r in s.car.controlOf && c in s.car.routeOf;
    if c in s.car.ackedOn {
      var other := s.car.ackedOn[c];
      assert other in s.car.acks && other in s.car.deliveries && other in s.car.controlOf;
    }
  }

  lemma AckControlAdmitted(s: State, v: int, r: int)
    requires CarriageInv(s.car, s.auth.controls, s.routes, s.count) && PlanAckControl(s, v, r).Some?
    ensures AdmitsAll(s, PlanAckControl(s, v, r).value)
  {
    AckedIsDelivered(s, r);
    AdmitsOne(s, PlanAckControl(s, v, r).value[0]);
  }

  /** Reusing the open permit or issuing the next one, the control's admission is accepted. */
  lemma AdmissionAdmitted(s: State, w: int, goal: int, ask: ControlAction, id: int, rest: seq<Event>)
    requires LeaseInv(s.auth, s.count) && w in s.staff.lives && s.staff.lives[w].lifecycle.goal == Some(goal)
    requires id !in s.auth.controls
    requires PlanAdmission(s, w, goal, s.staff.lives[w].lifecycle, ask).Some?
    requires
      var a := PlanAdmission(s, w, goal, s.staff.lives[w].lifecycle, ask).value;
      var z := if a.issue == [] then s else Apply(s, a.issue[0]);
      AdmitsAll(Apply(z, Grant(ControlAdmitted(id, w, goal, a.order, a.permit))), rest)
    ensures
      var a := PlanAdmission(s, w, goal, s.staff.lives[w].lifecycle, ask).value;
      AdmitsAll(s, a.issue + ([Grant(ControlAdmitted(id, w, goal, a.order, a.permit))] + rest))
  {
    var a := PlanAdmission(s, w, goal, s.staff.lives[w].lifecycle, ask).value;
    var e := Grant(ControlAdmitted(id, w, goal, a.order, a.permit));
    if a.issue == [] {
      AdmitsFirst(s, e, rest);
      assert a.issue + ([e] + rest) == [e] + rest;
    } else {
      AdmitsFirst(Apply(s, a.issue[0]), e, rest);
      AdmitsFirst(s, a.issue[0], [e] + rest);
      assert a.issue + ([e] + rest) == [a.issue[0]] + ([e] + rest);
    }
  }

  /** The issuer, route and binding events that follow an admitted control. */
  function IssueOf(s: State, cv: int, wv: int, id: int, r: int): seq<Event>
    requires SeatOf(s.top, cv).Some? && EntryOf(s.top, cv).Some? && EntryOf(s.top, wv).Some?
  {
    [Carry(IssuerBound(id, SeatOf(s.top, cv).value.session)),
     Routing(RouteProposed(RouteRequest(r, EntryOf(s.top, cv).value.endpoint,
                                        EntryOf(s.top, wv).value.endpoint, OrchestrationControl), RequireApproval)),
     Carry(ControlRouteBound(id, r))]
  }

  predicate Issuable(s: State, cv: int, wv: int, id: int, r: int) {
    && Commands(s, cv, wv) && EntryOf(s.top, cv).Some? && EntryOf(s.top, wv).Some?
    && id in s.auth.controls && s.auth.controls[id].worker == s.staff.bindings[wv] && Fresh(s, s.auth.controls[id])
    && id !in s.car.issuers && id !in s.car.routeOf && r !in s.car.controlOf && r !in s.routes
  }

  lemma IssuerAdmitted(s: State, cv: int, wv: int, id: int, r: int)
    requires SupervisionInv(s.top, s.sup, s.staff.owner, s.count) && Issuable(s, cv, wv, id, r)
    ensures Admits(s, IssueOf(s, cv, wv, id, r)[0])
  {
    var controller := SeatOf(s.top, cv).value.session;
    assert controller in s.sup.designated;
  }

  lemma RouteAdmitted(s: State, cv: int, wv: int, id: int, r: int)
    requires TopInv(s.top, s.count) && SupervisionInv(s.top, s.sup, s.staff.owner, s.count) && Issuable(s, cv, wv, id, r)
    ensures
      var plan := IssueOf(s, cv, wv, id, r);
      Admits(Apply(s, plan[0]), plan[1]) && Admits(Apply(Apply(s, plan[0]), plan[1]), plan[2])
  {
    EntryOwned(s.top, s.count, cv);
    EntryOwned(s.top, s.count, wv);
    hide TopInv, SupervisionInv;
  }

  lemma IssueAdmitted(s: State, cv: int, wv: int, id: int, r: int)
    requires TopInv(s.top, s.count) && SupervisionInv(s.top, s.sup, s.staff.owner, s.count) && Issuable(s, cv, wv, id, r)
    ensures AdmitsAll(s, IssueOf(s, cv, wv, id, r))
  {
    var plan := IssueOf(s, cv, wv, id, r);
    IssuerAdmitted(s, cv, wv, id, r);
    RouteAdmitted(s, cv, wv, id, r);
    hide TopInv, SupervisionInv, Issuable, AdmitsAll;
    AdmitsOne(Apply(Apply(s, plan[0]), plan[1]), plan[2]);
    AdmitsFirst(Apply(s, plan[0]), plan[1], [plan[2]]);
    AdmitsFirst(s, plan[0], [plan[1]] + [plan[2]]);
    assert plan == [plan[0]] + ([plan[1]] + [plan[2]]);
  }

  /** After any durable phase, the control action plans exactly what is left of it. */
  lemma ApplyControlResumes(s: State, v: int, r: int)
    requires Inv(s) && PlanApplyControl(s, v, r).Some?
    ensures Admits(s, PlanApplyControl(s, v, r).value[0])
    ensures |PlanApplyControl(s, v, r).value| > 1 ==>
      PlanApplyControl(Apply(s, PlanApplyControl(s, v, r).value[0]), v, r) == Some(PlanApplyControl(s, v, r).value[1..])
  {
    hide TopInv, ProviderInv, GatesInv, EndsInv, MailInv, ToolInv, MemoryInv, SupervisionInv, LeaseInv, SingleAuthority;
    var plan := PlanApplyControl(s, v, r).value;
    if |plan| == 3 {
      StartResumes(s, v, r);
    } else if |plan| == 2 {
      TransitionResumes(s, v, r);
    } else {
      assert r in s.work.actions && ActionInv(s.work.actions[r], r, s.car, s.auth.controls, s.count);
    }
  }

  lemma StartResumes(s: State, v: int, r: int)
    requires CarriageInv(s.car, s.auth.controls, s.routes, s.count) && WorkInv(s.work, s.car, s.auth.controls, s.count)
    requires StaffInv(s.staff, s.count) && PlanApplyControl(s, v, r).Some? && |PlanApplyControl(s, v, r).value| == 3
    ensures Admits(s, PlanApplyControl(s, v, r).value[0])
    ensures PlanApplyControl(Apply(s, PlanApplyControl(s, v, r).value[0]), v, r) == Some(PlanApplyControl(s, v, r).value[1..])
  {
    assert r in s.car.controlOf;
    ActedIsRecorded(s, r);
  }

  /** A control is acted on over the one route that delivered it. */
  lemma ActedIsRecorded(s: State, r: int)
    requires CarriageInv(s.car, s.auth.controls, s.routes, s.count) && WorkInv(s.work, s.car, s.auth.controls, s.count)
    requires r in s.car.deliveries
    ensures s.car.deliveries[r].control in s.work.actionOf ==> r in s.work.actions
  {
    var c := s.car.deliveries[r].control;
    assert r in s.car.controlOf && c in s.car.routeOf;
    if c in s.work.actionOf {
      var other := s.work.actionOf[c];
      assert ActionInv(s.work.actions[other], other, s.car, s.auth.controls, s.count);
      assert other in s.car.controlOf;
    }
  }

  lemma TransitionResumes(s: State, v: int, r: int)
    requires CarriageInv(s.car, s.auth.controls, s.routes, s.count) && WorkInv(s.work, s.car, s.auth.controls, s.count)
    requires StaffInv(s.staff, s.count) && PlanApplyControl(s, v, r).Some? && |PlanApplyControl(s, v, r).value| == 2
    ensures Admits(s, PlanApplyControl(s, v, r).value[0])
    ensures PlanApplyControl(Apply(s, PlanApplyControl(s, v, r).value[0]), v, r) == Some(PlanApplyControl(s, v, r).value[1..])
  {
    var a := s.work.actions[r];
    assert ActionInv(a, r, s.car, s.auth.controls, s.count);
    AdmissionEnablesAction(s.staff.lives[a.worker].lifecycle, a.goal, a.order);
  }

  lemma {:induction false} ApplyControlAdmitted(s: State, v: int, r: int)
    requires Inv(s) && PlanApplyControl(s, v, r).Some?
    ensures AdmitsAll(s, PlanApplyControl(s, v, r).value)
    decreases |PlanApplyControl(s, v, r).value|
  {
    hide Inv, Admits, Apply;
    var plan := PlanApplyControl(s, v, r).value;
    ApplyControlResumes(s, v, r);
    if |plan| == 1 {
      AdmitsOne(s, plan[0]);
    } else {
      KeepsInv(s, plan[0]);
      ApplyControlAdmitted(Apply(s, plan[0]), v, r);
    }
  }

  lemma StartExecutionAdmitted(s: State, v: int, r: int, turn: int)
    requires CarriageInv(s.car, s.auth.controls, s.routes, s.count) && LeaseInv(s.auth, s.count)
    requires PlanStartExecution(s, v, r, turn).Some?
    ensures AdmitsAll(s, PlanStartExecution(s, v, r, turn).value)
  {
    assert s.car.deliveries[r].control in s.auth.controls;
    assert ControlInv(s.auth, s.car.deliveries[r].control, s.count);
    AdmitsOne(s, PlanStartExecution(s, v, r, turn).value[0]);
  }

  /** A control is delivered over the one route that carries it. */
  lemma DeliveredIsCarried(s: State, r: int)
    requires CarriageInv(s.car, s.auth.controls, s.routes, s.count) && r in s.car.controlOf
    ensures s.car.controlOf[r] in s.car.deliveredOn ==> r in s.car.deliveries
  {
    var c := s.car.controlOf[r];
    if c in s.car.deliveredOn {
      var other := s.car.deliveredOn[c];
      assert other in s.car.deliveries && other in s.car.controlOf;
      assert c in s.car.routeOf;
    }
  }

  lemma DispatchControlAdmitted(s: State, r: int)
    requires GatesInv(s.routes, s.count) && CarriageInv(s.car, s.auth.controls, s.routes, s.count)
    requires PlanDispatchControl(s, r).Some?
    ensures AdmitsAll(s, PlanDispatchControl(s, r).value)
  {
    var plan := PlanDispatchControl(s, r).value;
    var c := s.car.controlOf[r];
    assert c in s.car.routeOf;
    DeliveredIsCarried(s, r);
    if s.routes[r].gate.Allowed? {
      if |plan| == 1 {
        AdmitsOne(s, plan[0]);
      } else {
        AdmitsOne(Apply(s, plan[0]), plan[1]);
        AdmitsFirst(s, plan[0], [plan[1]]);
        assert plan == [plan[0]] + [plan[1]];
      }
    } else if |plan| == 1 {
      AdmitsOne(s, plan[0]);
    }
  }

  // ---- Every plan, every prefix

  /** The commands about topology, routes, tools and memory. */
  predicate IsRouting(c: Command) {
    match c
    case BindTopology(_, _, _) => true
    case BindEndpoint(_, _, _) => true
    case ProposeMessage(_, _, _) => true
    case AttachPayload(_, _, _) => true
    case DecideMessage(_, _) => true
    case DeliverMessage(_) => true
    case RegisterProvider(_, _) => true
    case BindProvider(_, _) => true
    case ProposeCall(_, _, _, _, _, _, _, _) => true
    case DecideCall(_, _) => true
    case Execute(_, _, _, _) => true
    case RecordOutcome(_, _, _, _) => true
    case DecideResult(_, _, _) => true
    case RecordMemory(_, _, _) => true
    case DecideMemory(_, _, _) => true
    case SupersedeMemory(_, _) => true
    case _ => false
  }

  lemma RoutingPlanAdmitted(s: State, c: Command)
    requires Inv(s) && Plan(s, c).Some? && IsRouting(c)
    ensures AdmitsAll(s, Plan(s, c).value)
  {
    hide TopInv, ProviderInv, GatesInv, EndsInv, MailInv, ToolInv, MemoryInv, StaffInv, SupervisionInv, LeaseInv,
      SingleAuthority, CarriageInv, WorkInv, AdmitsAll;
    hide PlanBindTopology, PlanBindEndpoint, PlanProposeMessage, PlanAttachPayload, PlanDecideMessage, PlanDeliverMessage,
      PlanBindProvider, PlanProposeCall, PlanExecute, PlanDecideResult, PlanDecideMemory, PlanSupersedeMemory,
      PlanBindWorkerId, PlanBindWorkerSession, PlanDesignateController, PlanSupervise, PlanGrantLease, PlanProposeControl,
      PlanDecideControl, PlanDispatchControl, PlanAckControl, PlanApplyControl, PlanStartExecution, PlanAssignGoal,
      PlanMoveWorker, PlanSetPhase, PlanJoinSuccessor;
    match c
    case BindTopology(v, box, session) => BindTopologyAdmitted(s, v, box, session);
    case BindEndpoint(v, session, ep) => BindEndpointAdmitted(s, v, session, ep);
    case ProposeMessage(r, a, b) => ProposeMessageAdmitted(s, r, a, b);
    case AttachPayload(p, r, text) => AttachPayloadAdmitted(s, p, r, text);
    case DecideMessage(r, d) => DecideMessageAdmitted(s, r, d);
    case DeliverMessage(r) => DeliverMessageAdmitted(s, r);
    case RegisterProvider(p, name) => AdmitsOne(s, Prov(ProviderRegistered(p, name)));
    case BindProvider(p, ep) => BindProviderAdmitted(s, p, ep);
    case ProposeCall(id, r, v, p, operation, arguments, policy, wellFormed) =>
      ProposeCallAdmitted(s, id, r, v, p, operation, arguments, policy);
    case DecideCall(r, d) => DecideCallAdmitted(s, r, d);
    case Execute(x, r, ready, text) => ExecuteAdmitted(s, x, r, text);
    case RecordOutcome(id, r, kind, text) => AdmitsOne(s, Tool(ToolOutcome(id, r, kind, text)));
    case DecideResult(id, v, verdict) => DecideResultAdmitted(s, id, v, verdict);
    case RecordMemory(m, v, text) => AdmitsOne(s, Recall(MemoryRecorded(m, v, text)));
    case DecideMemory(m, v, verdict) => DecideMemoryAdmitted(s, m, v, verdict);
    case SupersedeMemory(older, newer) => SupersedeMemoryAdmitted(s, older, newer);
    case _ =>
  }

  lemma WorkPlanAdmitted(s: State, c: Command)
    requires Inv(s) && Plan(s, c).Some? && !IsRouting(c)
    ensures AdmitsAll(s, Plan(s, c).value)
  {
    hide TopInv, ProviderInv, GatesInv, EndsInv, MailInv, ToolInv, MemoryInv, StaffInv, SupervisionInv, LeaseInv,
      SingleAuthority, CarriageInv, WorkInv, AdmitsAll;
    hide PlanBindTopology, PlanBindEndpoint, PlanProposeMessage, PlanAttachPayload, PlanDecideMessage, PlanDeliverMessage,
      PlanBindProvider, PlanProposeCall, PlanExecute, PlanDecideResult, PlanDecideMemory, PlanSupersedeMemory,
      PlanBindWorkerId, PlanBindWorkerSession, PlanDesignateController, PlanSupervise, PlanGrantLease, PlanProposeControl,
      PlanDecideControl, PlanDispatchControl, PlanAckControl, PlanApplyControl, PlanStartExecution, PlanAssignGoal,
      PlanMoveWorker, PlanSetPhase, PlanJoinSuccessor;
    match c
    case BindWorkerId(v, w) => BindWorkerIdAdmitted(s, v, w);
    case BindWorkerSession(v, w) => BindWorkerSessionAdmitted(s, v, w);
    case DesignateController(v) => DesignateControllerAdmitted(s, v);
    case Supervise(cv, wv) => SuperviseAdmitted(s, cv, wv);
    case GrantLease(cv, wv, l, allowance) => GrantLeaseAdmitted(s, cv, wv, l, allowance);
    case ProposeControl(cv, wv, id, r, ask) => ProposeControlAdmitted(s, cv, wv, id, r, ask);
    case DecideControl(r, d) => DecideControlAdmitted(s, r, d);
    case DispatchControl(r) => DispatchControlAdmitted(s, r);
    case AckControl(v, r) => AckControlAdmitted(s, v, r);
    case ApplyControl(v, r) => ApplyControlAdmitted(s, v, r);
    case StartExecution(v, r, turn) => StartExecutionAdmitted(s, v, r, turn);
    case AssignWorkerGoal(w, goal) => AssignGoalAdmitted(s, w, goal);
    case MoveWorker(w, goal, action) => MoveWorkerAdmitted(s, w, goal, action);
    case RegisterSession(session) => AdmitsOne(s, Top(SessionRegistered(session)));
    case SetPhase(box, session, after) => MembershipAdmitted(s, c);
    case JoinSuccessor(box, new_, handoff) => MembershipAdmitted(s, c);
    case _ =>
  }

  /** Whatever the command, each event it appends is admitted when it is appended. */
  lemma PlanAdmitted(s: State, c: Command)
    requires Inv(s) && Plan(s, c).Some?
    ensures AdmitsAll(s, Plan(s, c).value)
  {
    hide *;
    if IsRouting(c) {
      RoutingPlanAdmitted(s, c);
    } else {
      WorkPlanAdmitted(s, c);
    }
  }

  lemma MembershipAdmitted(s: State, c: Command)
    requires c.SetPhase? || c.JoinSuccessor?
    requires Plan(s, c).Some?
    ensures AdmitsAll(s, Plan(s, c).value)
  {
    AdmitsOne(s, Plan(s, c).value[0]);
  }

  lemma DecideResultAdmitted(s: State, id: int, v: int, verdict: MemoryDecision)
    requires PlanDecideResult(s, id, v, verdict).Some?
    ensures AdmitsAll(s, PlanDecideResult(s, id, v, verdict).value)
  {
    AdmitsOne(s, PlanDecideResult(s, id, v, verdict).value[0]);
  }

  lemma ProposeControlAdmitted(s: State, cv: int, wv: int, id: int, r: int, ask: ControlAction)
    requires Inv(s) && PlanProposeControl(s, cv, wv, id, r, ask).Some?
    ensures AdmitsAll(s, PlanProposeControl(s, cv, wv, id, r, ask).value)
  {
    hide ProviderInv, GatesInv, EndsInv, MailInv, ToolInv, MemoryInv, SingleAuthority, WorkInv, TopInv, SupervisionInv, LeaseInv;
    hide AdmitsAll, PlanAdmission;
    var w := s.staff.bindings[wv];
    var life := s.staff.lives[w].lifecycle;
    var a := PlanAdmission(s, w, life.goal.value, life, ask).value;
    var e := Grant(ControlAdmitted(id, w, life.goal.value, a.order, a.permit));
    var plan := PlanProposeControl(s, cv, wv, id, r, ask).value;
    InvGrows(s, s.count);
    InvGrows(s, s.count + 1);
    AdmittedIsFresh(s, w, ask, id);
    var y := Apply(if a.issue == [] then s else Apply(s, a.issue[0]), e);
    var rest := IssueOf(y, cv, wv, id, r);
    IssueAdmitted(y, cv, wv, id, r);
    AdmissionAdmitted(s, w, life.goal.value, ask, id, rest);
    assert plan == a.issue + ([e] + rest);
  }

  /** Admitting the control touches only the leases and controls, and the control is fresh. */
  lemma AdmittedIsFresh(s: State, w: int, ask: ControlAction, id: int)
    requires w in s.staff.lives && s.staff.lives[w].lifecycle.goal.Some?
    requires PlanAdmission(s, w, s.staff.lives[w].lifecycle.goal.value, s.staff.lives[w].lifecycle, ask).Some?
    ensures
      var goal := s.staff.lives[w].lifecycle.goal.value;
      var a := PlanAdmission(s, w, goal, s.staff.lives[w].lifecycle, ask).value;
      var z := if a.issue == [] then s else Apply(s, a.issue[0]);
      var y := Apply(z, Grant(ControlAdmitted(id, w, goal, a.order, a.permit)));
      && |a.issue| <= 1
      && y.top == s.top && y.sup == s.sup && y.staff == s.staff && y.routes == s.routes && y.car == s.car && y.prov == s.prov
      && y.count == s.count + |a.issue| + 1 && id in y.auth.controls && y.auth.controls[id].worker == w && Fresh(y, y.auth.controls[id])
  {
  }
}
