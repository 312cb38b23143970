/** Routes in every run: gates against the log of decisions, delivery order, one-shot execution and
    endpoint ownership. */
module RouteTheorems {
  import opened Common
  import opened Events
  import opened Core
  import opened Replaying
  import opened Writer
  import opened Invariant
  import opened Safety
  import opened Log
  import opened Index
  import opened Runs

  predicate Decides(e: Event, r: int) {
    e.Routing? && e.routing.RouteDecided? && e.routing.route == r
  }

  /** The user's latest word on the route, read off the journal. */
  function LastDecision(j: Journal, r: int): Option<RouteDecision> {
    if j == [] then None
    else if Decides(j[|j| - 1], r) then Some(j[|j| - 1].routing.decision)
    else LastDecision(j[..|j| - 1], r)
  }

  /** The gate an undispatched route must have: the latest decision wins over the policy. */
  function GateFor(policy: RoutePolicy, latest: Option<RouteDecision>): GateState {
    match latest
    case None => InitialGate(policy)
    case Some(Allow) => Allowed(User)
    case Some(Deny) => Denied(User)
  }

  lemma DecisionStep(s: State, r: int, e: Event)
    requires Admits(s, e) && (r !in s.routes ==> !(e.Routing? && e.routing.RouteProposed? && e.routing.request.id == r))
    ensures r in Apply(s, e).routes <==> r in s.routes
    ensures Decides(e, r) ==> r in s.routes && Apply(s, e).routes[r].decision == Some(e.routing.decision)
    ensures !Decides(e, r) && r in s.routes ==> Apply(s, e).routes[r].decision == s.routes[r].decision
  {
    hide Lawful, ApplyTop, ApplyProviders, ApplyMail, ApplyTools, ApplyMemory, ApplyWorkers, MarkTransition, ApplySupervision,
      ApplyMandate, ApplyCarriage, ApplyWork;
    hide AcceptsTopology, AcceptsProviders, AcceptsMail, AcceptsTools, AcceptsMemory, AcceptsWorkers, AcceptsSupervision,
      AcceptsMandate, AcceptsCarriage, AcceptsWork;
  }

  /** The replayed decision is the last one in the journal. */
  lemma {:induction false} DecisionIsLast(j: Journal, r: int)
    requires Legal(j)
    ensures LastDecision(j, r) == if r in Folded(j).routes then Folded(j).routes[r].decision else None
  {
    hide Legal, Admits, Apply;
    if j != [] {
      var k, e := j[..|j| - 1], j[|j| - 1];
      LegalPrefix(j, |j| - 1);
      AdmittedAt(j, |j| - 1);
      DecisionIsLast(k, r);
      if r !in Folded(k).routes && e.Routing? && e.routing.RouteProposed? && e.routing.request.id == r {
        ProposedUndecided(Folded(k), e);
      } else {
        DecisionStep(Folded(k), r, e);
      }
    }
  }

  lemma ProposedUndecided(s: State, e: Event)
    requires e.Routing? && e.routing.RouteProposed?
    ensures e.routing.request.id in Apply(s, e).routes && Apply(s, e).routes[e.routing.request.id].decision == None
  {
  }

  /** In every run the gate of every undispatched route is fixed by its policy and the latest decision
      in the journal, and the gate rebuilt from those two before a dispatch agrees with it. So the
      only reasons to refuse a dispatch are a pending or denied gate. */
  lemma {:induction false} GateFollowsDecisions(steps: seq<Step>, r: int)
    requires r in Folded(Run(steps)).routes
    ensures
      var s := Folded(Run(steps));
      var route := s.routes[r];
      && (route.dispatched.None? ==>
            route.gate == GateFor(route.policy, LastDecision(Run(steps), r)) && RebuiltGate(route) == Some(route.gate))
      && (DispatchPart(s, r).None? <==> route.gate.Pending? || route.gate.Denied?)
  {
    hide Legal, Run, Folded, Backed, TopInv, ProviderInv, EndsInv, MailInv, ToolInv, MemoryInv, StaffInv, SupervisionInv,
      LeaseInv, SingleAuthority, CarriageInv, WorkInv, LastDecision;
    RunIndexed(steps);
    DecisionIsLast(Run(steps), r);
  }

  /** A delivered message has its proposal, payload and dispatch durable before it, in that order,
      and carries the payload's identity and conversations; `HappensOnce` makes each of them unique. */
  lemma {:induction false} DeliveryHistory(steps: seq<Step>, k: int)
    requires 0 <= k < |Run(steps)| && Run(steps)[k].Post? && Run(steps)[k].post.RouteDelivered?
    ensures
      var j, e := Run(steps), Run(steps)[k].post;
      exists request: RouteRequest, q, m, text ::
        && request.id == e.route && request.category.SessionMessage?
        && q < m < e.dispatch < k + 1
        && Holds(j, q, Routing(RouteProposed(request, RequireApproval)))
        && Holds(j, m, Post(PayloadAttached(e.payload, e.route, e.sender, e.receiver, text)))
        && Holds(j, e.dispatch, Routing(RouteDispatched(e.route, User)))
  {
    hide Legal, Run, Folded, BackedTop, BackedProviders, BackedTools, BackedMemory, BackedMandate, BackedCarriage, BackedWork;
    hide TopInv, ProviderInv, EndsInv, ToolInv, MemoryInv, StaffInv, SupervisionInv, LeaseInv, SingleAuthority, CarriageInv, WorkInv;
    var j, e := Run(steps), Run(steps)[k].post;
    RunIndexed(steps);
    Recorded(j, k);
    var s := Folded(j);
    assert e.route in s.mail.deliveries && e.route in s.mail.payloads && e.route in s.routes;
    var route, p := s.routes[e.route], s.mail.payloads[e.route];
    assert Holds(j, route.proposed, Routing(RouteProposed(route.request, RequireApproval)));
    assert Holds(j, p.at, Post(PayloadAttached(e.payload, e.route, e.sender, e.receiver, p.text)));
    assert Holds(j, e.dispatch, Routing(RouteDispatched(e.route, User)));
  }

  /** Every Allow of a session message comes after the payload it approves. */
  lemma {:induction false} AllowFollowsPayload(steps: seq<Step>, k: int)
    requires 0 <= k < |Run(steps)| && Run(steps)[k].Routing? && Run(steps)[k].routing.RouteDecided?
    requires Run(steps)[k].routing.decision.Allow?
    requires
      var r := Run(steps)[k].routing.route;
      r in Folded(Run(steps)[..k]).routes && Folded(Run(steps)[..k]).routes[r].request.category.SessionMessage?
    ensures
      exists m, p, a, b, text :: m <= k && Holds(Run(steps), m, Post(PayloadAttached(p, Run(steps)[k].routing.route, a, b, text)))
  {
    hide Run, Legal, Folded, BackedTop, BackedProviders, BackedTools, BackedMemory, BackedMandate, BackedCarriage, BackedWork;
    var j, r := Run(steps), Run(steps)[k].routing.route;
    RunIndexed(steps);
    AdmittedAt(j, k);
    LegalPrefix(j, k);
    StateBacked(j[..k]);
    var p := Folded(j[..k]).mail.payloads[r];
    assert Holds(j[..k], p.at, Post(PayloadAttached(p.id, r, p.sender, p.receiver, p.text)));
    assert Holds(j, p.at, Post(PayloadAttached(p.id, r, p.sender, p.receiver, p.text)));
  }

  /** What authorised a dispatch, and that nothing was decided on the route afterwards. */
  lemma {:induction false} DispatchAuthority(steps: seq<Step>, k: int)
    requires 0 <= k < |Run(steps)| && Run(steps)[k].Routing? && Run(steps)[k].routing.RouteDispatched?
    ensures
      var j, e := Run(steps), Run(steps)[k].routing;
      && e.route in Folded(j).routes
      && (if Folded(j).routes[e.route].policy.RequireApproval? then e.grant.User? && LastDecision(j[..k], e.route) == Some(Allow)
          else && Folded(j).routes[e.route].policy.AllowByPolicy? && Folded(j).routes[e.route].request.category.ToolCall?
               && e.grant.Policy? && forall i | 0 <= i < |j| :: !Decides(j[i], e.route))
      && forall i | k < i < |j| :: !Decides(j[i], e.route)
  {
    hide Legal, Run, Folded, Backed, TopInv, ProviderInv, EndsInv, MailInv, ToolInv, MemoryInv, StaffInv, SupervisionInv,
      LeaseInv, SingleAuthority, CarriageInv, WorkInv, LastDecision, Lawful;
    var j, r := Run(steps), Run(steps)[k].routing.route;
    RunIndexed(steps);
    Recorded(j, k);
    AdmittedAt(j, k);
    LegalPrefix(j, k);
    LegalReplays(j[..k]);
    DecisionIsLast(j[..k], r);
    DecisionIsLast(j, r);
    SameRoute(j, k, r);
    forall i | 0 <= i < |j| && Decides(j[i], r)
      ensures i < k && Folded(j).routes[r].decision.Some?
    {
      Recorded(j, i);
    }
  }

  /** Only routes that ask for approval are decided, never again after their dispatch, and no decision
      repeats the one before it. */
  lemma {:induction false} DecisionsAlternate(steps: seq<Step>, k: int)
    requires 0 <= k < |Run(steps)| && Run(steps)[k].Routing? && Run(steps)[k].routing.RouteDecided?
    ensures
      var j, e := Run(steps), Run(steps)[k].routing;
      && e.route in Folded(j).routes && Folded(j).routes[e.route].policy.RequireApproval?
      && LastDecision(j[..k], e.route) != Some(e.decision)
      && (Folded(j).routes[e.route].dispatched.Some? ==> k + 1 < Folded(j).routes[e.route].dispatched.value)
  {
    hide Legal, Run, Folded, Backed, Inv, LastDecision;
    var j, r := Run(steps), Run(steps)[k].routing.route;
    RunIndexed(steps);
    Recorded(j, k);
    AdmittedAt(j, k);
    LegalPrefix(j, k);
    DecisionIsLast(j[..k], r);
    SameRoute(j, k, r);
  }

  /** Policy and category of a route never change. */
  lemma SameRoute(j: Journal, k: int, r: int)
    requires Legal(j) && 0 <= k <= |j| && r in Folded(j[..k]).routes
    ensures r in Folded(j).routes && Folded(j).routes[r].policy == Folded(j[..k]).routes[r].policy
    ensures Folded(j).routes[r].request == Folded(j[..k]).routes[r].request
  {
    hide Legal, Folded, BackedTop, BackedProviders, BackedMail, BackedTools, BackedMemory, BackedMandate, BackedCarriage, BackedWork;
    hide EndsInv, TopInv, ProviderInv, MailInv, ToolInv, MemoryInv, StaffInv, SupervisionInv, LeaseInv, SingleAuthority, CarriageInv, WorkInv;
    LegalPrefix(j, k);
    LegalReplays(j[..k]);
    StateBacked(j[..k]);
    Recorded(j, Folded(j[..k]).routes[r].proposed - 1);
  }

  // ---- Tool calls

  /** A dispatched tool route belongs to a call that was recorded, proposed and bound before it. */
  lemma {:induction false} ExecutionNeedsBoundCall(steps: seq<Step>, k: int)
    requires 0 <= k < |Run(steps)| && Run(steps)[k].Routing? && Run(steps)[k].routing.RouteDispatched?
    requires
      var r := Run(steps)[k].routing.route;
      r in Folded(Run(steps)).routes && Folded(Run(steps)).routes[r].request.category.ToolCall?
    ensures
      var j, r := Run(steps), Run(steps)[k].routing.route;
      exists c, session, p, operation, arguments, a, b ::
        && a < Folded(j).routes[r].proposed < b < k + 1
        && Holds(j, a, Tool(ToolCallRecorded(c, session, p, operation, arguments)))
        && Holds(j, b, Tool(ToolCallRouteBound(c, r)))
  {
    hide Run, Legal, Folded, BackedTop, BackedProviders, BackedMail, BackedMemory, BackedMandate, BackedCarriage, BackedWork;
    hide TopInv, ProviderInv, EndsInv, MailInv, MemoryInv, StaffInv, SupervisionInv, LeaseInv, SingleAuthority, CarriageInv, WorkInv;
    var j, r := Run(steps), Run(steps)[k].routing.route;
    RunIndexed(steps);
    Recorded(j, k);
    var s := Folded(j);
    assert r in s.tools.routeOwner;
    var c := s.tools.routeOwner[r];
    assert CallInv(s.tools, c, s.routes, s.count);
    var call := s.tools.calls[c];
    assert Holds(j, call.recorded, Tool(ToolCallRecorded(c, call.session, call.provider, call.operation, call.arguments)));
    assert Holds(j, call.route.value.at, Tool(ToolCallRouteBound(c, r)));
  }

  lemma {:induction false} DispatchedNotExecutable(j: Journal, k: int, x: Executor, r: int, text: string)
    requires Legal(j) && 0 <= k < |j| && j[k].Routing? && j[k].routing.RouteDispatched? && j[k].routing.route == r
    ensures PlanExecute(Folded(j), x, r, text).None?
  {
    hide Folded, Legal;
    Recorded(j, k);
  }

  lemma ExecuteStarts(s: State, c: Command)
    requires c.Execute? && Plan(s, c).Some?
    ensures |Plan(s, c).value| > 0 && Plan(s, c).value[0].Routing? && Plan(s, c).value[0].routing.RouteDispatched?
    ensures Plan(s, c).value[0].routing.route == c.route
  {
  }

  lemma ExecuteLeavesDispatch(j: Journal, step: Step)
    requires Legal(j) && step.command.Execute? && After(j, step) != j
    ensures |j| < |After(j, step)| && j <= After(j, step)
    ensures
      var e := After(j, step)[|j|];
      e.Routing? && e.routing.RouteDispatched? && e.routing.route == step.command.route
  {
    hide Legal, Plan, Inv, Folded, Replay;
    LegalReplays(j);
    AfterPlan(j, step.command, step.cut);
    var plan := Plan(Folded(j), step.command);
    if plan.Some? {
      ExecuteStarts(Folded(j), step.command);
      assert j + plan.value[..0] == j;
    }
  }

  /** Whatever the three executors, the user and crashes do in between: once one execution of a tool
      route has left its dispatch in the journal, no later execution of it appends anything. */
  lemma AtMostOneExecution(steps: seq<Step>, i: int, k: int)
    requires 0 <= i < k < |steps| && steps[i].command.Execute? && steps[k].command.Execute?
    requires steps[i].command.route == steps[k].command.route
    requires Run(steps[..i + 1]) != Run(steps[..i])
    ensures Run(steps[..k + 1]) == Run(steps[..k])
  {
    hide Legal, Run, Folded, Replay, PlanExecute, After, Inv;
    var before, now := Run(steps[..i]), Run(steps[..k]);
    RunAppends(steps[..i], steps[i]);
    RunAppends(steps[..k], steps[k]);
    assert steps[..i] + [steps[i]] == steps[..i + 1] && steps[..k] + [steps[k]] == steps[..k + 1];
    RunLegal(steps[..i]);
    ExecuteLeavesDispatch(before, steps[i]);
    assert steps[..k][..i + 1] == steps[..i + 1];
    RunExtends(steps[..k], i + 1);
    RunLegal(steps[..k]);
    LegalReplays(now);
    assert now[|before|] == Run(steps[..i + 1])[|before|];
    var c := steps[k].command;
    DispatchedNotExecutable(now, |before|, c.executor, c.route, c.text);
    assert Plan(Folded(now), c).None?;
    AfterPlan(now, c, steps[k].cut);
  }

  // ---- Endpoints

  /** The event gives the endpoint its owner. */
  predicate Owns(e: Event, ep: int) {
    || (e.Top? && e.top.SessionEndpointBound? && e.top.endpoint == ep)
    || (e.Prov? && e.prov.ProviderEndpointBound? && e.prov.endpoint == ep)
  }

  /** Across sessions and providers together, an endpoint is given an owner at most once. */
  lemma {:induction false} EndpointOwnedOnce(steps: seq<Step>, i: int, k: int, ep: int)
    requires 0 <= i < |Run(steps)| && 0 <= k < |Run(steps)| && Owns(Run(steps)[i], ep) && Owns(Run(steps)[k], ep)
    ensures i == k
  {
    hide Legal, Run, Folded, Backed, TopInv, GatesInv, EndsInv, MailInv, ToolInv, MemoryInv, StaffInv, SupervisionInv, LeaseInv,
      SingleAuthority, CarriageInv, WorkInv;
    RunIndexed(steps);
    Recorded(Run(steps), i);
    Recorded(Run(steps), k);
  }

  lemma BoundIsLogged(j: Journal, ep: int, at: int)
    requires BackedTop(j, Folded(j).top) && BackedProviders(j, Folded(j).prov)
    requires BoundBefore(Folded(j).top, Folded(j).prov, ep, at)
    requires EndpointMaps(Folded(j).top, |j|) && ProviderInv(Folded(j).prov, Folded(j).top, |j|)
    ensures exists i :: 0 <= i < |j| && i + 1 < at && Owns(j[i], ep)
  {
    hide Folded;
    var s := Folded(j);
    if SessionBoundBefore(s.top, ep, at) {
      var x := s.top.endpointOwner[ep];
      assert Owns(j[s.top.sessions[x].endpoint.value.at - 1], ep);
    } else {
      var x := s.prov.endpointOwner[ep];
      assert Owns(j[s.prov.table[x].endpoint.value.at - 1], ep);
    }
  }

  /** Both ends of every proposed route were owned by an earlier event of the journal. */
  lemma {:induction false} RouteEndsOwnedBefore(steps: seq<Step>, k: int)
    requires 0 <= k < |Run(steps)| && Run(steps)[k].Routing? && Run(steps)[k].routing.RouteProposed?
    ensures
      var j, request := Run(steps), Run(steps)[k].routing.request;
      (exists i :: 0 <= i < k && Owns(j[i], request.source)) && exists i :: 0 <= i < k && Owns(j[i], request.destination)
  {
    hide Legal, Run, Folded, BackedTop, BackedProviders, BackedRoutes, BackedMail, BackedTools, BackedMemory, BackedMandate,
      BackedCarriage, BackedWork, BoundBefore, EndpointMaps, HomeMaps, BindingMaps, ProviderInv, GatesInv, MailInv, ToolInv,
      MemoryInv, StaffInv, SupervisionInv, LeaseInv, SingleAuthority, CarriageInv, WorkInv;
    RunIndexed(steps);
    Recorded(Run(steps), k);
    var request := Run(steps)[k].routing.request;
    BoundIsLogged(Run(steps), request.source, k + 1);
    BoundIsLogged(Run(steps), request.destination, k + 1);
  }

  /** So the writer's route-history guards never decide: an endpoint without an owner is in no route. */
  lemma HistoryGuardImplied(s: State, ep: int)
    requires EndsInv(s.top, s.prov, s.routes) && !EndpointOwned(s, ep)
    ensures !InRouteHistory(s, ep)
  {
  }
}
