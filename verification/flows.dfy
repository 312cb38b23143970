/** Undisturbed protocols complete from every reachable journal: what is permitted takes effect as asked. */
module Flows {
  import opened Common
  import opened Events
  import opened Core
  import opened Replaying
  import opened Writer
  import opened Invariant
  import opened Safety
  import opened Log
  import opened Index
  import opened Runs
  import opened Uninterrupted
  import opened Requests
  import opened Acceptance

  /** A permitted command that nothing interrupts extends the journal and does what it asks. */
  lemma Performed(steps: seq<Step>, c: Command)
    requires Permits(Folded(Run(steps)), c)
    ensures Honours(Folded(Run(steps)), Folded(Run(steps + [Uncut(c)])), c)
    ensures Inv(Folded(Run(steps))) && Inv(Folded(Run(steps + [Uncut(c)])))
    ensures |Run(steps)| == Folded(Run(steps)).count
    ensures |Run(steps + [Uncut(c)])| == Folded(Run(steps + [Uncut(c)])).count
  {
    hide Run, Folded, Plan, Permits, Honours, Inv, Legal, Backed, Uncut;
    AcceptedExactly(steps, c);
    RequestHonoured(steps, c);
    RunIndexed(steps);
    RunIndexed(steps + [Uncut(c)]);
  }

  // ---- A session message

  predicate MessagePossible(s: State, r: int, a: int, b: int, p: int, text: string) {
    && Reachable(s, a) && Reachable(s, b) && a != b && !Blank(text)
    && r !in s.routes && p !in s.mail.payloadOwner
  }

  lemma UnproposedHasNoMail(s: State, r: int)
    requires MailInv(s.mail, s.routes, s.count) && r !in s.routes
    ensures r !in s.mail.payloads && r !in s.mail.deliveries
  {
  }

  lemma MessageProposed(s: State, t: State, r: int, a: int, b: int)
    requires MailInv(s.mail, s.routes, s.count) && Reachable(s, a) && Reachable(s, b) && a != b
    requires r !in s.routes && HonoursMail(s, t, ProposeMessage(r, a, b))
    ensures Undispatched(t, r, SessionMessage) && Connects(t, r, a, b) && t.routes[r].decision.None?
    ensures t.top == s.top && t.mail == s.mail && t.count == s.count + 1 && r !in t.mail.payloads && r !in t.mail.deliveries
  {
    hide Resolve;
    UnproposedHasNoMail(s, r);
  }

  lemma PayloadKeepsRoute(s: State, t: State, r: int, a: int, b: int, p: int, text: string)
    requires Connects(s, r, a, b) && HonoursMail(s, t, AttachPayload(p, r, text))
    ensures t.top == s.top && t.routes == s.routes && t.count == s.count + 1 && Connects(t, r, a, b)
    ensures r in t.mail.payloads && t.mail.payloads[r] == Payload(p, a, b, text, t.count)
    ensures t.mail.deliveries == s.mail.deliveries
  {
    hide Resolve;
  }

  lemma DecisionKeepsRoute(s: State, t: State, r: int, d: RouteDecision, a: int, b: int)
    requires Connects(s, r, a, b) && Decided(s, t, r, d)
    ensures t.top == s.top && t.mail == s.mail && t.count == s.count + 1 && Connects(t, r, a, b)
    ensures t.routes[r].decision == Some(d) && t.routes[r].dispatched == s.routes[r].dispatched
  {
    hide Resolve;
  }

  predicate Deliverable(s: State, r: int, a: int, b: int) {
    && r in s.mail.payloads && s.mail.payloads[r].sender == a && s.mail.payloads[r].receiver == b
    && r !in s.mail.deliveries
  }

  /** What each step of a message needs. */
  lemma MessagePermits(s: State, r: int, a: int, b: int, p: int, text: string)
    ensures MessagePossible(s, r, a, b, p, text) ==> Permits(s, ProposeMessage(r, a, b))
    ensures
      a != b && Undispatched(s, r, SessionMessage) && Connects(s, r, a, b) ==>
        && (!Blank(text) && p !in s.mail.payloadOwner && r !in s.mail.payloads ==> Permits(s, AttachPayload(p, r, text)))
        && (r in s.mail.payloads && s.routes[r].decision.None? ==> Permits(s, DecideMessage(r, Allow)))
        && (Deliverable(s, r, a, b) && s.routes[r].decision == Some(Allow) ==> Permits(s, DeliverMessage(r)))
  {
    hide Connects, Blank, Reachable;
  }

  function ApprovedSteps(steps: seq<Step>, r: int, a: int, b: int, p: int, text: string): seq<Step> {
    steps + [Uncut(ProposeMessage(r, a, b))] + [Uncut(AttachPayload(p, r, text))] + [Uncut(DecideMessage(r, Allow))]
  }

  /** The message is proposed, carries its payload and is allowed. */
  lemma MessageApproved(steps: seq<Step>, r: int, a: int, b: int, p: int, text: string)
    requires MessagePossible(Folded(Run(steps)), r, a, b, p, text)
    ensures
      var before, s := Folded(Run(steps)), Folded(Run(ApprovedSteps(steps, r, a, b, p, text)));
      && s.top == before.top && s.count == before.count + 3 && Permits(s, DeliverMessage(r))
      && s.routes[r].dispatched.None?
      && r in s.mail.payloads && s.mail.payloads[r] == Payload(p, a, b, text, before.count + 2)
  {
    hide Run, Folded, Uncut, Blank, Connects, EntryOf, Reachable, TopInv, ProviderInv, GatesInv, EndsInv, MailInv, ToolInv,
      MemoryInv, StaffInv, SupervisionInv, LeaseInv, SingleAuthority, CarriageInv, WorkInv, Permits, Decided;
    hide HonoursTopology, HonoursMail, HonoursTools, HonoursMemory, HonoursStaff, HonoursControls;
    MessagePermits(Folded(Run(steps)), r, a, b, p, text);
    Performed(steps, ProposeMessage(r, a, b));
    var steps1 := steps + [Uncut(ProposeMessage(r, a, b))];
    MessageProposed(Folded(Run(steps)), Folded(Run(steps1)), r, a, b);
    MessagePermits(Folded(Run(steps1)), r, a, b, p, text);
    Performed(steps1, AttachPayload(p, r, text));
    var steps2 := steps1 + [Uncut(AttachPayload(p, r, text))];
    PayloadKeepsRoute(Folded(Run(steps1)), Folded(Run(steps2)), r, a, b, p, text);
    MessagePermits(Folded(Run(steps2)), r, a, b, p, text);
    Performed(steps2, DecideMessage(r, Allow));
    var steps3 := steps2 + [Uncut(DecideMessage(r, Allow))];
    DecisionAsked(Folded(Run(steps2)), Folded(Run(steps3)), r, Allow);
    DecisionKeepsRoute(Folded(Run(steps2)), Folded(Run(steps3)), r, Allow, a, b);
    ConnectedIsProposed(Folded(Run(steps3)), r, a, b);
    MessagePermits(Folded(Run(steps3)), r, a, b, p, text);
    assert steps3 == ApprovedSteps(steps, r, a, b, p, text);
  }

  lemma DecisionAsked(s: State, t: State, r: int, d: RouteDecision)
    ensures HonoursMail(s, t, DecideMessage(r, d)) ==> Decided(s, t, r, d)
    ensures Decided(s, t, r, d) && r in s.routes ==> r in t.routes && t.routes[r].request == s.routes[r].request
  {
  }

  lemma ConnectedIsProposed(s: State, r: int, a: int, b: int)
    ensures Connects(s, r, a, b) ==> r in s.routes
  {
  }

  /** From any reachable journal with two addressable conversations, a message with fresh identities
      and a non-blank text that the user allows is delivered, to the sessions they are seated on. */
  lemma MessageCompletes(steps: seq<Step>, r: int, a: int, b: int, p: int, text: string)
    requires MessagePossible(Folded(Run(steps)), r, a, b, p, text)
    ensures
      var s := Folded(Run(steps));
      var j := Run(ApprovedSteps(steps, r, a, b, p, text) + [Uncut(DeliverMessage(r))]);
      && |j| == |Run(steps)| + 5
      && j[|j| - 1] == Post(RouteDelivered(r, p, a, b, EntryOf(s.top, a).value.session, EntryOf(s.top, b).value.session, |j| - 1))
      && Holds(j, |Run(steps)| + 2, Post(PayloadAttached(p, r, a, b, text)))
  {
    hide Run, Folded, Uncut, Blank, EntryOf, Inv, Legal, Permits, ApprovedSteps, BackedTop, BackedProviders, BackedTools,
      BackedMemory, BackedMandate, BackedCarriage, BackedWork;
    hide HonoursTopology, HonoursTools, HonoursMemory, HonoursStaff, HonoursControls;
    var approved := ApprovedSteps(steps, r, a, b, p, text);
    MessageApproved(steps, r, a, b, p, text);
    Performed(approved, DeliverMessage(r));
    var all := approved + [Uncut(DeliverMessage(r))];
    RunIndexed(all);
    RunIndexed(steps);
    var t := Folded(Run(all));
    assert Holds(Run(all), t.mail.deliveries[r].at,
                 Post(RouteDelivered(r, p, a, b, t.mail.deliveries[r].senderSession, t.mail.deliveries[r].receiverSession,
                                     t.mail.deliveries[r].dispatch)));
    assert Holds(Run(all), t.mail.payloads[r].at, Post(PayloadAttached(p, r, a, b, text)));
  }

  // ---- A tool call

  predicate CallPossible(s: State, id: int, r: int, v: int, p: int, policy: RoutePolicy) {
    && Reachable(s, v) && p in s.prov.table && s.prov.table[p].endpoint.Some? && id !in s.tools.calls && r !in s.routes
    && (policy.AllowByPolicy? || policy.RequireApproval?)
  }

  /** The call as it was asked for, bound to its undispatched route, made by a session that is still current. */
  predicate CallReady(s: State, id: int, r: int, v: int, call: Call, policy: RoutePolicy) {
    && Undispatched(s, r, ToolCall) && r in s.tools.routeOwner && s.tools.routeOwner[r] == id
    && id in s.tools.calls && s.tools.calls[id] == call
    && s.routes[r].policy == policy && CurrentLeaf(s.top, call.session) && ConversationOf(s.top, call.session) == Some(v)
  }

  lemma LeafIsCurrent(t: Topology, n: int, v: int)
    requires TopInv(t, n) && EntryOf(t, v).Some?
    ensures ConversationOf(t, EntryOf(t, v).value.session) == Some(v)
    ensures SeatOf(t, v).Some? && SeatOf(t, v).value.session == EntryOf(t, v).value.session
    ensures SeatOf(t, v).value.phase == EntryOf(t, v).value.phase
  {
  }

  lemma CallProposed(s: State, t: State, id: int, r: int, v: int, p: int, operation: string, arguments: string, policy: RoutePolicy)
    requires TopInv(s.top, s.count) && CallPossible(s, id, r, v, p, policy)
    requires HonoursTools(s, t, ProposeCall(id, r, v, p, operation, arguments, policy, true))
    ensures
      CallReady(t, id, r, v, Call(EntryOf(s.top, v).value.session, p, operation, arguments, s.count + 1, Some(Stamped(r, s.count + 3))),
                policy)
    ensures t.routes[r].decision.None? && t.count == s.count + 3
  {
    hide EntryOf, SeatOf, TopInv;
    LeafIsCurrent(s.top, s.count, v);
  }

  lemma ApprovalKeepsCall(s: State, t: State, id: int, r: int, v: int, call: Call, policy: RoutePolicy)
    requires CallReady(s, id, r, v, call, policy) && Decided(s, t, r, Allow)
    ensures CallReady(t, id, r, v, call, policy) && t.routes[r].decision == Some(Allow) && t.count == s.count + 1
  {
  }

  function ProposedSteps(steps: seq<Step>, id: int, r: int, v: int, p: int, operation: string, arguments: string,
                         policy: RoutePolicy): seq<Step>
  {
    steps + [Uncut(ProposeCall(id, r, v, p, operation, arguments, policy, true))]
    + if policy.RequireApproval? then [Uncut(DecideCall(r, Allow))] else []
  }

  /** The record of the call a proposal leaves when the journal has `count` events. */
  function CallFor(s: State, r: int, v: int, p: int, operation: string, arguments: string): Call
    requires EntryOf(s.top, v).Some?
  {
    Call(EntryOf(s.top, v).value.session, p, operation, arguments, s.count + 1, Some(Stamped(r, s.count + 3)))
  }

  lemma CallAuthorized(steps: seq<Step>, id: int, r: int, v: int, p: int, operation: string, arguments: string,
                       policy: RoutePolicy)
    requires CallPossible(Folded(Run(steps)), id, r, v, p, policy)
    ensures
      var before, s := Folded(Run(steps)), Folded(Run(ProposedSteps(steps, id, r, v, p, operation, arguments, policy)));
      && EntryOf(before.top, v).Some? && CallReady(s, id, r, v, CallFor(before, r, v, p, operation, arguments), policy)
      && (policy.RequireApproval? ==> s.routes[r].decision == Some(Allow))
  {
    hide Run, Folded, Uncut, EntryOf, CurrentLeaf, TopInv, ProviderInv, GatesInv, EndsInv, MailInv, ToolInv, MemoryInv, StaffInv,
      SupervisionInv, LeaseInv, SingleAuthority, CarriageInv, WorkInv, PermitsWork, Decided;
    hide HonoursTopology, HonoursMail, HonoursMemory, HonoursStaff, HonoursControls;
    var c := ProposeCall(id, r, v, p, operation, arguments, policy, true);
    Performed(steps, c);
    var s, steps1 := Folded(Run(steps)), steps + [Uncut(c)];
    CallProposed(s, Folded(Run(steps1)), id, r, v, p, operation, arguments, policy);
    if policy.RequireApproval? {
      Performed(steps1, DecideCall(r, Allow));
      ApprovalKeepsCall(Folded(Run(steps1)), Folded(Run(steps1 + [Uncut(DecideCall(r, Allow))])), id, r, v,
                        CallFor(s, r, v, p, operation, arguments), policy);
    } else {
      assert steps1 + [] == steps1;
    }
  }

  /** From any reachable journal, a call by an addressable conversation on a registered provider, allowed
      by a standing policy or by the user, is executed once, with the operation and arguments asked for,
      and its prepared result is recorded. */
  lemma ToolCallCompletes(steps: seq<Step>, id: int, r: int, v: int, p: int, operation: string, arguments: string,
                          policy: RoutePolicy, text: string)
    requires CallPossible(Folded(Run(steps)), id, r, v, p, policy) && ByteLength(text) <= MAX_OUTCOME_BYTES
    ensures
      var session := EntryOf(Folded(Run(steps)).top, v).value.session;
      var proposed := ProposedSteps(steps, id, r, v, p, operation, arguments, policy);
      var j := Run(proposed + [Uncut(Execute(Builtin, r, true, text))]);
      && |j| == |Run(proposed)| + 2
      && Holds(j, |Run(steps)| + 1, Tool(ToolCallRecorded(id, session, p, operation, arguments)))
      && Holds(j, |Run(steps)| + 3, Tool(ToolCallRouteBound(id, r)))
      && Holds(j, |j| - 1, Routing(RouteDispatched(r, if policy.RequireApproval? then User else Policy)))
      && Holds(j, |j|, Tool(ToolOutcome(id, r, OutcomeKind.Result, text)))
  {
    hide Run, Folded, Uncut, ByteLength, EntryOf, Inv, Legal, CurrentLeaf, ProposedSteps, BackedTop, BackedProviders, BackedRoutes,
      BackedMail, BackedTools, BackedMemory, BackedMandate, BackedCarriage, BackedWork, PermitsWork;
    hide HonoursTopology, HonoursMail, HonoursTools, HonoursMemory, HonoursStaff, HonoursControls;
    var proposed := ProposedSteps(steps, id, r, v, p, operation, arguments, policy);
    CallAuthorized(steps, id, r, v, p, operation, arguments, policy);
    RunIndexed(steps);
    Performed(proposed, Execute(Builtin, r, true, text));
    var all := proposed + [Uncut(Execute(Builtin, r, true, text))];
    RunIndexed(all);
    ExecutedIsLogged(Run(all), Folded(Run(proposed)), id, r, text);
  }

  /** The records that an execution leaves, read off the journal. */
  lemma ExecutedIsLogged(j: Journal, s: State, id: int, r: int, text: string)
    requires BackedTools(j, Folded(j).tools) && BackedRoutes(j, Folded(j).routes) && Folded(j).count == |j|
    requires ByteLength(text) <= MAX_OUTCOME_BYTES && HonoursTools(s, Folded(j), Execute(Builtin, r, true, text))
    requires r in s.tools.routeOwner && s.tools.routeOwner[r] == id && id in s.tools.calls && s.tools.calls[id].route.Some?
    ensures
      var call := s.tools.calls[id];
      && Holds(j, call.recorded, Tool(ToolCallRecorded(id, call.session, call.provider, call.operation, call.arguments)))
      && Holds(j, call.route.value.at, Tool(ToolCallRouteBound(id, call.route.value.id)))
      && r in s.routes && Holds(j, |j| - 1, Routing(RouteDispatched(r, if s.routes[r].policy.RequireApproval? then User else Policy)))
      && Holds(j, |j|, Tool(ToolOutcome(id, r, OutcomeKind.Result, text))) && |j| == s.count + 2
  {
    hide ByteLength, Folded;
    var t := Folded(j);
    assert id in t.tools.calls && id in t.tools.outcomes && r in t.routes;
  }

  // ---- A worker control

  /** The order a request asks for; a Continue names its permit. */
  predicate Asks(ask: ControlAction, order: ControlKind) {
    match ask
    case AskStart => order.Start?
    case AskContinue => order.Continue?
    case AskStop => order.Halt?
    case AskStatus => order.Status?
  }

  /** The control carries the requested order to the worker `w` of conversation `wv`, and still fits. */
  predicate Underway(s: State, id: int, r: int, w: int, wv: int, goal: int, ask: ControlAction) {
    && Undispatched(s, r, OrchestrationControl) && r in s.car.controlOf && s.car.controlOf[r] == id && id in s.auth.controls
    && s.auth.controls[id].worker == w && s.auth.controls[id].goal == goal && Asks(ask, s.auth.controls[id].order)
    && w in s.staff.owner && s.staff.owner[w] == wv && Fits(s, w, goal, s.auth.controls[id].order)
    && r !in s.car.deliveries && r !in s.car.acks && r !in s.work.actions && r !in s.work.executions
  }

  lemma UsedIsDelivered(s: State, r: int)
    requires CarriageInv(s.car, s.auth.controls, s.routes, s.count) && WorkInv(s.work, s.car, s.auth.controls, s.count)
    ensures r in s.work.actions || r in s.work.executions || r in s.car.acks ==> r in s.car.deliveries
    ensures r in s.car.deliveries ==> r in s.routes
  {
    if r in s.work.actions {
      assert ActionInv(s.work.actions[r], r, s.car, s.auth.controls, s.count);
    }
    if r in s.work.executions {
      assert ExecutionInv(s.work.executions[r], r, s.car, s.auth.controls);
    }
    if r in s.car.deliveries {
      assert r in s.car.controlOf;
    }
  }

  /** The worker and goal that a control for conversation `wv` concerns. */
  predicate Concerned(s: State, wv: int, w: int, goal: int) {
    && wv in s.staff.bindings && s.staff.bindings[wv] == w && w in s.staff.lives
    && s.staff.lives[w].lifecycle.goal == Some(goal)
  }

  lemma ControlProposed(s: State, t: State, cv: int, wv: int, id: int, r: int, ask: ControlAction, w: int, goal: int)
    requires PermitsProposal(s, cv, wv, id, r, ask) && ControlRecorded(s, t, cv, wv, id, r, ask) && Concerned(s, wv, w, goal)
    requires StaffInv(s.staff, s.count)
    requires r !in s.car.deliveries && r !in s.car.acks && r !in s.work.actions && r !in s.work.executions
    ensures Underway(t, id, r, w, wv, goal, ask) && t.routes[r].decision.None? && t.staff == s.staff && t.work == s.work
  {
    hide Oversees, EntryOf, SeatOf, OpenPermits, LiveLeases;
  }

  lemma ControlAllowed(s: State, t: State, id: int, r: int, w: int, wv: int, goal: int, ask: ControlAction)
    requires Underway(s, id, r, w, wv, goal, ask) && Decided(s, t, r, Allow)
    ensures Underway(t, id, r, w, wv, goal, ask) && t.routes[r].decision == Some(Allow)
    ensures t.staff == s.staff && t.work == s.work && t.auth == s.auth
  {
  }

  /** The control lies in the inbox of `wv`, acknowledged or not, and nothing has been done about it. */
  predicate Arrived(s: State, id: int, r: int, w: int, wv: int, goal: int, ask: ControlAction) {
    && r in s.car.deliveries && s.car.deliveries[r].control == id && s.car.deliveries[r].worker == w
    && s.car.deliveries[r].conversation == wv && id in s.auth.controls && s.auth.controls[id].worker == w
    && s.auth.controls[id].goal == goal && Asks(ask, s.auth.controls[id].order) && Fits(s, w, goal, s.auth.controls[id].order)
    && r !in s.work.actions && r !in s.work.executions
  }

  lemma ControlArrives(s: State, t: State, id: int, r: int, w: int, wv: int, goal: int, ask: ControlAction)
    requires Underway(s, id, r, w, wv, goal, ask) && HonoursControls(s, t, DispatchControl(r))
    ensures Arrived(t, id, r, w, wv, goal, ask) && r !in t.car.acks && t.staff == s.staff && t.work == s.work && t.auth == s.auth
  {
  }

  lemma ControlAcknowledged(s: State, t: State, id: int, r: int, w: int, wv: int, goal: int, ask: ControlAction)
    requires Arrived(s, id, r, w, wv, goal, ask) && HonoursControls(s, t, AckControl(wv, r))
    ensures Arrived(t, id, r, w, wv, goal, ask) && AckedBy(t, wv, r) && t.staff == s.staff && t.work == s.work && t.auth == s.auth
  {
  }

  lemma UnderwayPermits(s: State, id: int, r: int, w: int, wv: int, goal: int, ask: ControlAction)
    requires Underway(s, id, r, w, wv, goal, ask)
    ensures s.routes[r].decision.None? ==> Permits(s, DecideControl(r, Allow))
    ensures s.routes[r].decision == Some(Allow) ==> Permits(s, DispatchControl(r))
  {
    hide Fits;
  }

  lemma ProposalPermits(s: State, cv: int, wv: int, id: int, r: int, ask: ControlAction)
    requires PermitsProposal(s, cv, wv, id, r, ask)
    ensures Permits(s, ProposeControl(cv, wv, id, r, ask))
  {
    hide PermitsProposal;
  }

  function AllowedSteps(steps: seq<Step>, cv: int, wv: int, id: int, r: int, ask: ControlAction): seq<Step> {
    steps + [Uncut(ProposeControl(cv, wv, id, r, ask))] + [Uncut(DecideControl(r, Allow))]
  }

  lemma ControlsAllowed(steps: seq<Step>, cv: int, wv: int, id: int, r: int, ask: ControlAction, w: int, goal: int)
    requires PermitsProposal(Folded(Run(steps)), cv, wv, id, r, ask) && Concerned(Folded(Run(steps)), wv, w, goal)
    ensures
      var before, s := Folded(Run(steps)), Folded(Run(AllowedSteps(steps, cv, wv, id, r, ask)));
      && Underway(s, id, r, w, wv, goal, ask) && s.routes[r].decision == Some(Allow)
      && s.staff == before.staff && s.work == before.work
  {
    hide Run, Folded, Uncut, TopInv, ProviderInv, GatesInv, EndsInv, MailInv, ToolInv, MemoryInv, StaffInv, SupervisionInv,
      LeaseInv, SingleAuthority, CarriageInv, WorkInv, Permits, PermitsProposal, ControlRecorded, Decided, Fits, Concerned, Underway;
    hide HonoursTopology, HonoursMail, HonoursTools, HonoursMemory, HonoursStaff;
    ProposalPermits(Folded(Run(steps)), cv, wv, id, r, ask);
    Performed(steps, ProposeControl(cv, wv, id, r, ask));
    var steps1 := steps + [Uncut(ProposeControl(cv, wv, id, r, ask))];
    ProposedIsNew(Folded(Run(steps)), cv, wv, id, r, ask);
    UsedIsDelivered(Folded(Run(steps)), r);
    ControlProposed(Folded(Run(steps)), Folded(Run(steps1)), cv, wv, id, r, ask, w, goal);
    UnderwayPermits(Folded(Run(steps1)), id, r, w, wv, goal, ask);
    Performed(steps1, DecideControl(r, Allow));
    var steps2 := steps1 + [Uncut(DecideControl(r, Allow))];
    ControlAllowed(Folded(Run(steps1)), Folded(Run(steps2)), id, r, w, wv, goal, ask);
  }

  lemma ProposedIsNew(s: State, cv: int, wv: int, id: int, r: int, ask: ControlAction)
    requires PermitsProposal(s, cv, wv, id, r, ask)
    ensures r !in s.routes && id !in s.auth.controls && wv in s.staff.bindings && s.staff.bindings[wv] in s.staff.lives
    ensures s.staff.lives[s.staff.bindings[wv]].lifecycle.goal.Some?
  {
  }

  function AckedSteps(steps: seq<Step>, cv: int, wv: int, id: int, r: int, ask: ControlAction): seq<Step> {
    AllowedSteps(steps, cv, wv, id, r, ask) + [Uncut(DispatchControl(r))] + [Uncut(AckControl(wv, r))]
  }

  /** A proposed control that the user allows reaches the worker's inbox with the order asked for. */
  lemma ControlReaches(steps: seq<Step>, cv: int, wv: int, id: int, r: int, ask: ControlAction, w: int, goal: int)
    requires PermitsProposal(Folded(Run(steps)), cv, wv, id, r, ask) && Concerned(Folded(Run(steps)), wv, w, goal)
    ensures
      var before, s := Folded(Run(steps)), Folded(Run(AckedSteps(steps, cv, wv, id, r, ask)));
      && Arrived(s, id, r, w, wv, goal, ask) && AckedBy(s, wv, r) && s.staff == before.staff && s.work == before.work
  {
    hide Run, Folded, Uncut, Inv, PermitsRouting, PermitsProposal, Fits, AllowedSteps, Concerned, Underway;
    hide HonoursTopology, HonoursMail, HonoursTools, HonoursMemory, HonoursStaff, HonoursControls;
    var allowed := AllowedSteps(steps, cv, wv, id, r, ask);
    ControlsAllowed(steps, cv, wv, id, r, ask, w, goal);
    UnderwayPermits(Folded(Run(allowed)), id, r, w, wv, goal, ask);
    Performed(allowed, DispatchControl(r));
    var steps3 := allowed + [Uncut(DispatchControl(r))];
    ControlArrives(Folded(Run(allowed)), Folded(Run(steps3)), id, r, w, wv, goal, ask);
    Performed(steps3, AckControl(wv, r));
    var steps4 := steps3 + [Uncut(AckControl(wv, r))];
    ControlAcknowledged(Folded(Run(steps3)), Folded(Run(steps4)), id, r, w, wv, goal, ask);
  }

  /** The phase a worker is in once an order to start or stop has been applied. */
  function PhaseAfter(order: ControlKind): WorkerPhase {
    if order.Start? then Working else Stopped
  }

  /** The three events of an action, and the worker in its new phase. */
  ghost predicate ActionDone(j: Journal, r: int, id: int, w: int, v: int, goal: int, order: ControlKind, acked: int, phase: WorkerPhase) {
    && Holds(j, |j| - 2, Doing(ActionStarted(id, r, w, v, goal, order, acked, phase)))
    && Holds(j, |j| - 1, Staff(Transition(w, goal, if order.Start? then StartOrResume else Stop, Some(Cause(id, r, |j| - 2)))))
    && Holds(j, |j|, Doing(ActionResult(id, r, w, v, goal, order, |j| - 2, |j| - 1, PhaseAfter(order))))
    && w in Folded(j).staff.lives && Folded(j).staff.lives[w].lifecycle == Lifecycle(Some(goal), PhaseAfter(order))
  }

  lemma ActionIsLogged(j: Journal, s: State, v: int, r: int)
    requires BackedWork(j, Folded(j).work) && Folded(j).count == |j| && Applied(s, Folded(j), v, r) && r !in s.work.actions
    ensures |j| == s.count + 3 && r in s.car.acks && s.car.deliveries[r].worker in s.staff.lives
    ensures
      var d := s.car.deliveries[r];
      var control := s.auth.controls[d.control];
      ActionDone(j, r, d.control, d.worker, v, control.goal, control.order, s.car.acks[r].at,
                 s.staff.lives[d.worker].lifecycle.phase)
  {
    hide Folded;
    assert r in Folded(j).work.actions;
  }

  /** An acknowledged start or stop order, not yet applied, that fits its worker. */
  predicate FirstApplication(s: State, v: int, r: int) {
    && AckedBy(s, v, r) && r !in s.work.actions && s.car.deliveries[r].control in s.auth.controls
    && var control := s.auth.controls[s.car.deliveries[r].control];
       (control.order.Start? || control.order.Halt?) && Fits(s, s.car.deliveries[r].worker, control.goal, control.order)
  }

  /** In every run its application appends the three phases and leaves the worker working or stopped. */
  lemma FirstApplicationCompletes(steps: seq<Step>, v: int, r: int)
    requires FirstApplication(Folded(Run(steps)), v, r)
    ensures
      var s, j := Folded(Run(steps)), Run(steps + [Uncut(ApplyControl(v, r))]);
      var d := s.car.deliveries[r];
      var control := s.auth.controls[d.control];
      && |j| == |Run(steps)| + 3
      && ActionDone(j, r, d.control, d.worker, v, control.goal, control.order, s.car.acks[r].at,
                    s.staff.lives[d.worker].lifecycle.phase)
  {
    hide Run, Folded, Uncut, Inv, Legal, Applied, PermitsRouting, ActionDone, BackedTop, BackedProviders, BackedRoutes, BackedMail,
      BackedTools, BackedMemory, BackedMandate, BackedCarriage, BackedWork;
    hide HonoursTopology, HonoursMail, HonoursTools, HonoursMemory, HonoursStaff;
    var all := steps + [Uncut(ApplyControl(v, r))];
    assert PermitsApplication(Folded(Run(steps)), v, r);
    Performed(steps, ApplyControl(v, r));
    RunIndexed(all);
    ActionIsLogged(Run(all), Folded(Run(steps)), v, r);
  }

  lemma ArrivedApplies(s: State, id: int, r: int, w: int, wv: int, goal: int, ask: ControlAction)
    requires Arrived(s, id, r, w, wv, goal, ask) && AckedBy(s, wv, r)
    ensures ask.AskStart? || ask.AskStop? ==> FirstApplication(s, wv, r)
    ensures ask.AskContinue? ==> forall turn | turn !in s.work.turns :: Permits(s, StartExecution(wv, r, turn))
    ensures s.car.deliveries[r].control == id && s.car.deliveries[r].worker == w && s.auth.controls[id].goal == goal
    ensures Asks(ask, s.auth.controls[id].order)
  {
    hide Fits;
  }

  /** From any reachable journal in which a controller may start or stop a worker, the order that the user
      allows reaches the worker's inbox, and once acknowledged and applied it leaves the three durable
      phases and the worker working or stopped. */
  lemma OrderCompletes(steps: seq<Step>, cv: int, wv: int, id: int, r: int, ask: ControlAction, w: int, goal: int, phase: WorkerPhase)
    requires ask.AskStart? || ask.AskStop?
    requires PermitsProposal(Folded(Run(steps)), cv, wv, id, r, ask) && Concerned(Folded(Run(steps)), wv, w, goal)
    requires phase == Folded(Run(steps)).staff.lives[w].lifecycle.phase
    ensures
      var acked := AckedSteps(steps, cv, wv, id, r, ask);
      var j := Run(acked + [Uncut(ApplyControl(wv, r))]);
      && |j| == |Run(acked)| + 3 && r in Folded(Run(acked)).car.acks
      && ActionDone(j, r, id, w, wv, goal, if ask.AskStart? then Start else Halt, Folded(Run(acked)).car.acks[r].at, phase)
  {
    hide Run, Folded, Uncut, PermitsProposal, ActionDone, AckedSteps, Arrived, FirstApplication;
    var acked := AckedSteps(steps, cv, wv, id, r, ask);
    ControlReaches(steps, cv, wv, id, r, ask, w, goal);
    ArrivedApplies(Folded(Run(acked)), id, r, w, wv, goal, ask);
    FirstApplicationCompletes(acked, wv, r);
  }

  predicate Waits(s: State, cv: int, wv: int, id: int, r: int, w: int, goal: int) {
    && Oversees(s, cv, wv) && EntryOf(s.top, cv).Some? && EntryOf(s.top, wv).Some? && id !in s.auth.controls && r !in s.routes
    && Concerned(s, wv, w, goal)
  }

  /** A start order sets a waiting worker to work. */
  lemma StartCompletes(steps: seq<Step>, cv: int, wv: int, id: int, r: int, w: int, goal: int)
    requires Waits(Folded(Run(steps)), cv, wv, id, r, w, goal)
    requires Folded(Run(steps)).staff.lives[w].lifecycle.phase in {Ready, NeedsInput, Blocked}
    ensures
      var j := Run(AckedSteps(steps, cv, wv, id, r, AskStart) + [Uncut(ApplyControl(wv, r))]);
      && w in Folded(j).staff.lives && Folded(j).staff.lives[w].lifecycle == Lifecycle(Some(goal), Working)
      && Holds(j, |j|, Doing(ActionResult(id, r, w, wv, goal, Start, |j| - 2, |j| - 1, Working)))
  {
    hide Run, Folded, Uncut, AckedSteps, Oversees, EntryOf;
    OrderCompletes(steps, cv, wv, id, r, AskStart, w, goal, Folded(Run(steps)).staff.lives[w].lifecycle.phase);
  }

  /** A stop order stops a worker in any phase that is not terminal. */
  lemma StopCompletes(steps: seq<Step>, cv: int, wv: int, id: int, r: int, w: int, goal: int)
    requires Waits(Folded(Run(steps)), cv, wv, id, r, w, goal)
    requires Folded(Run(steps)).staff.lives[w].lifecycle.phase !in {Completed, Failed, Stopped}
    ensures
      var j := Run(AckedSteps(steps, cv, wv, id, r, AskStop) + [Uncut(ApplyControl(wv, r))]);
      && w in Folded(j).staff.lives && Folded(j).staff.lives[w].lifecycle == Lifecycle(Some(goal), Stopped)
      && Holds(j, |j|, Doing(ActionResult(id, r, w, wv, goal, Halt, |j| - 2, |j| - 1, Stopped)))
  {
    hide Run, Folded, Uncut, AckedSteps, Oversees, EntryOf;
    OrderCompletes(steps, cv, wv, id, r, AskStop, w, goal, Folded(Run(steps)).staff.lives[w].lifecycle.phase);
  }

  /** A Continue with authority left ends in one execution for the turn asked for, under the control's own permit. */
  lemma ContinueCompletes(steps: seq<Step>, cv: int, wv: int, id: int, r: int, w: int, goal: int, turn: int)
    requires Waits(Folded(Run(steps)), cv, wv, id, r, w, goal) && turn !in Folded(Run(steps)).work.turns
    requires Folded(Run(steps)).staff.lives[w].lifecycle.phase.Working?
    requires OpenPermits(Folded(Run(steps)), w, goal) != {} || LiveLeases(Folded(Run(steps)), w, goal) != {}
    ensures
      var s := Folded(Run(AckedSteps(steps, cv, wv, id, r, AskContinue)));
      var t := Folded(Run(AckedSteps(steps, cv, wv, id, r, AskContinue) + [Uncut(StartExecution(wv, r, turn))]));
      && id in s.auth.controls && s.auth.controls[id].permit.Some? && r in s.car.acks && r in t.work.executions
      && t.work.executions[r] == Execution(id, w, wv, goal, s.auth.controls[id].permit.value.lease,
                                           s.auth.controls[id].permit.value.ordinal, s.car.acks[r].at, turn, t.count)
  {
    hide Run, Folded, Uncut, AckedSteps, Oversees, EntryOf, OpenPermits, LiveLeases, Permits, Arrived, Inv;
    hide HonoursTopology, HonoursMail, HonoursTools, HonoursMemory, HonoursStaff;
    var acked := AckedSteps(steps, cv, wv, id, r, AskContinue);
    ControlReaches(steps, cv, wv, id, r, AskContinue, w, goal);
    ArrivedApplies(Folded(Run(acked)), id, r, w, wv, goal, AskContinue);
    ArrivedFor(Folded(Run(acked)), id, r, w, wv, goal, AskContinue);
    Performed(acked, StartExecution(wv, r, turn));
  }

  lemma ArrivedFor(s: State, id: int, r: int, w: int, wv: int, goal: int, ask: ControlAction)
    requires Arrived(s, id, r, w, wv, goal, ask)
    ensures s.auth.controls[id].worker == w
  {
  }
}
