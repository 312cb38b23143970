/** Runs, and the exact correspondence between a replayed state and the events of its journal.

    `Legal` says that every event was admitted when it was appended. Every run is legal, a legal
    journal replays, and the replayed state is an index of the journal: no later event changes what
    it records of an earlier one (`Recorded`), and whatever it records was appended (`Backed`). */
module Log {
  import opened Common
  import opened Events
  import opened Core
  import opened Replaying
  import opened Writer
  import opened Invariant
  import opened Safety

  /** The audits' maps after the whole journal, without their checks. */
  function Folded(j: Journal): State {
    if j == [] then EMPTY else Apply(Folded(j[..|j| - 1]), j[|j| - 1])
  }

  ghost predicate Legal(j: Journal) {
    forall k {:trigger j[..k]} | 0 <= k < |j| :: Admits(Folded(j[..k]), j[k])
  }

  lemma EmptyLegal()
    ensures Legal([])
  {
  }

  lemma AdmittedAt(j: Journal, k: int)
    requires Legal(j) && 0 <= k < |j|
    ensures Admits(Folded(j[..k]), j[k])
  {
    hide Admits, Folded;
  }

  lemma LegalPrefix(j: Journal, k: int)
    requires Legal(j) && 0 <= k <= |j|
    ensures Legal(j[..k])
  {
    hide Admits, Folded;
    forall i | 0 <= i < k ensures Admits(Folded(j[..k][..i]), j[..k][i]) {
      assert j[..k][..i] == j[..i];
      assert Admits(Folded(j[..i]), j[i]);
    }
  }

  lemma EmptyInv()
    ensures Inv(EMPTY)
  {
  }

  lemma Counted(s: State, e: Event)
    requires Admits(s, e)
    ensures Accepts(s, e) && Apply(s, e).count == s.count + 1
  {
    hide Accepts, Lawful, ApplyTop, ApplyProviders, ApplyRoutes, ApplyMail, ApplyTools, ApplyMemory, ApplyWorkers,
      MarkTransition, ApplySupervision, ApplyMandate, ApplyCarriage, ApplyWork;
  }

  /** A legal journal satisfies the invariant and no audit of the store rejects it. */
  lemma {:induction false} LegalReplays(j: Journal)
    requires Legal(j)
    ensures Inv(Folded(j)) && Folded(j).count == |j| && Replay(j) == Some(Folded(j))
  {
    hide Inv, Admits, Accepts, Lawful, Apply;
    if j == [] {
      EmptyInv();
    } else {
      var k := j[..|j| - 1];
      LegalPrefix(j, |j| - 1);
      LegalReplays(k);
      assert Admits(Folded(k), j[|j| - 1]);
      KeepsInv(Folded(k), j[|j| - 1]);
      Counted(Folded(k), j[|j| - 1]);
    }
  }

  lemma {:induction false} PlannedPrefixLegal(j: Journal, events: seq<Event>, cut: int)
    requires Legal(j) && AdmitsAll(Folded(j), events) && 0 <= cut <= |events|
    ensures Legal(j + events[..cut])
    decreases cut
  {
    hide Admits, Apply;
    if cut == 0 {
      assert j + events[..0] == j;
    } else {
      var longer := j + [events[0]];
      assert longer[..|j|] == j;
      assert Legal(longer) by {
        forall k | 0 <= k < |longer| ensures Admits(Folded(longer[..k]), longer[k]) {
          if k < |j| { assert longer[..k] == j[..k]; }
        }
      }
      PlannedPrefixLegal(longer, events[1..], cut - 1);
      assert longer + events[1..][..cut - 1] == j + events[..cut];
    }
  }

  /** One step of the writer, interrupted anywhere, keeps the journal legal. */
  lemma StepLegal(j: Journal, step: Step)
    requires Legal(j)
    ensures Legal(After(j, step)) && j <= After(j, step)
  {
    hide Legal, Inv, AdmitsAll, Plan;
    LegalReplays(j);
    var plan := Plan(Folded(j), step.command);
    if plan.Some? {
      PlanAdmitted(Folded(j), step.command);
      PlannedPrefixLegal(j, plan.value, Min(step.cut, |plan.value|));
    }
  }

  lemma {:induction false} RunLegal(steps: seq<Step>)
    ensures Legal(Run(steps))
  {
    hide Legal, After;
    if steps == [] {
      EmptyLegal();
    } else {
      RunLegal(steps[..|steps| - 1]);
      StepLegal(Run(steps[..|steps| - 1]), steps[|steps| - 1]);
    }
  }

  /** Whatever commands run, and wherever each of them is cut off, the journal left behind
      replays: the store's audits never reject it, and it satisfies the invariant. */
  lemma RunNeverBricks(steps: seq<Step>)
    ensures Replay(Run(steps)) == Some(Folded(Run(steps))) && Inv(Folded(Run(steps)))
  {
    hide Legal, Inv, Run, Folded;
    RunLegal(steps);
    LegalReplays(Run(steps));
  }

  /** The journal only grows. */
  lemma {:induction false} RunExtends(steps: seq<Step>, k: int)
    requires 0 <= k <= |steps|
    ensures Run(steps[..k]) <= Run(steps)
    decreases |steps|
  {
    hide Legal, After;
    if k == |steps| {
      assert steps[..k] == steps;
    } else {
      var rest := steps[..|steps| - 1];
      RunExtends(rest, k);
      assert rest[..k] == steps[..k];
      RunLegal(rest);
      StepLegal(Run(rest), steps[|steps| - 1]);
    }
  }

  // ---- No later event changes what the state records of an earlier one

  predicate RecordsTop(t: Topology, at: int, e: TopEvent) {
    match e
    case SessionRegistered(x) => x in t.sessions && t.sessions[x].registered == at
    case ContainerCreated(c, root) => c in t.containers && root in t.containers[c].members
    case ConversationBound(v, c) => v in t.bindings && t.bindings[v] == c
    case PhaseChanged(_, _, _, _) => true
    case SuccessorJoined(c, old_, new_, _) =>
      && c in t.containers && old_ in t.containers[c].members && new_ in t.containers[c].members
      && t.containers[c].members[new_].predecessor == Some(old_) && t.containers[c].members[old_].successor == Some(new_)
    case SessionEndpointBound(x, ep) =>
      x in t.sessions && t.sessions[x].endpoint == Some(Stamped(ep, at)) && ep in t.endpointOwner && t.endpointOwner[ep] == x
    case WorkerSessionBound(w, x) => x in t.sessions && t.sessions[x].worker == Some(Stamped(w, at)) && w in t.active
    case WorkerSessionMoved(w, _, x) => x in t.sessions && t.sessions[x].worker == Some(Stamped(w, at)) && w in t.active
  }

  predicate RecordsProviders(p: Providers, at: int, e: ProviderEvent) {
    match e
    case ProviderRegistered(x, name) => x in p.table && p.table[x].name == name && p.table[x].registered == at
    case ProviderEndpointBound(x, ep) =>
      x in p.table && p.table[x].endpoint == Some(Stamped(ep, at)) && ep in p.endpointOwner && p.endpointOwner[ep] == x
  }

  predicate RecordsRoutes(routes: map<int, Route>, at: int, e: RouteEvent) {
    match e
    case RouteProposed(request, policy) =>
      && request.id in routes && routes[request.id].request == request && routes[request.id].policy == policy
      && routes[request.id].proposed == at
    case RouteDecided(r, d) =>
      && r in routes && routes[r].proposed < at && routes[r].decision.Some?
      && (routes[r].dispatched.Some? ==> at < routes[r].dispatched.value)
    case RouteDispatched(r, grant) => r in routes && routes[r].dispatched == Some(at) && routes[r].gate == Dispatched(grant)
  }

  predicate RecordsMail(m: Mail, at: int, e: MailEvent) {
    match e
    case PayloadAttached(p, r, a, b, text) => r in m.payloads && m.payloads[r] == Payload(p, a, b, text, at)
    case RouteDelivered(r, p, a, b, from, to, dispatch) =>
      r in m.deliveries && m.deliveries[r] == Delivery(p, a, b, from, to, dispatch, at)
  }

  predicate RecordsTools(k: Tools, at: int, e: ToolEvent) {
    match e
    case ToolCallRecorded(c, session, p, operation, arguments) =>
      c in k.calls && k.calls[c].(route := None) == Call(session, p, operation, arguments, at, None)
    case ToolCallRouteBound(c, r) => c in k.calls && k.calls[c].route == Some(Stamped(r, at))
    case ToolOutcome(c, r, kind, text) =>
      && c in k.outcomes && k.outcomes[c].route == r && k.outcomes[c].kind == kind && k.outcomes[c].text == text
      && k.outcomes[c].observed == at
    case ResultDecided(c, r, observed, v, _) =>
      && c in k.admissions && k.admissions[c].route == r && k.admissions[c].observed == observed
      && k.admissions[c].conversation == v && k.admissions[c].first <= at <= k.admissions[c].last
  }

  predicate RecordsMemory(m: Memory, at: int, e: MemoryEvent) {
    match e
    case MemoryRecorded(id, v, text) => id in m.artifacts && m.artifacts[id] == Artifact(v, text, at)
    case MemoryDecided(id, v, _) => id in m.artifacts && (id, v) in m.verdicts
    case MemorySuperseded(older, newer) => older in m.successor && m.successor[older] == Stamped(newer, at)
  }

  predicate RecordsStaff(f: Workers, work: Work, at: int, e: StaffEvent) {
    match e
    case WorkerBound(v, w) => v in f.bindings && f.bindings[v] == w && w in f.owner && f.owner[w] == v
    case GoalAssigned(w, goal) => w in f.lives && at <= f.lives[w].last
    case Transition(w, goal, action, cause) =>
      && w in f.lives && at <= f.lives[w].last
      && (cause.Some? ==>
            && cause.value.route in work.actions && work.actions[cause.value.route].transition == Some(at)
            && work.actions[cause.value.route].control == cause.value.control
            && work.actions[cause.value.route].started == cause.value.started
            && work.actions[cause.value.route].worker == w)
  }

  predicate RecordsSupervision(u: Supervision, at: int, e: SupervisionEvent) {
    match e
    case ControllerDesignated(x) => x in u.designated && u.designated[x] == at
    case ControllerWorkerBound(controller, x) => x in u.supervisor && u.supervisor[x] == Stamped(controller, at)
  }

  predicate RecordsMandate(a: Mandate, at: int, e: MandateEvent) {
    match e
    case LeaseCreated(l, w, goal, allowance) =>
      && l in a.leases && a.leases[l].worker == w && a.leases[l].goal == goal && a.leases[l].allowance == allowance
      && a.leases[l].created == at
    case PermitIssued(l, w, goal, ordinal) =>
      && l in a.leases && a.leases[l].worker == w && a.leases[l].goal == goal
      && 1 <= ordinal <= |a.leases[l].permits| && a.leases[l].permits[ordinal - 1].issued == at
    case ControlAdmitted(c, w, goal, order, permit) => c in a.controls && a.controls[c] == Control(w, goal, order, permit, at)
  }

  predicate RecordsCarriage(k: Carriage, at: int, e: CarriageEvent) {
    match e
    case IssuerBound(c, session) => c in k.issuers && k.issuers[c] == Stamped(session, at)
    case ControlRouteBound(c, r) => c in k.routeOf && k.routeOf[c].route == r && k.routeOf[c].at == at
    case ControlDelivered(c, r, w, v, session, controller, dispatch) =>
      && r in k.deliveries && k.deliveries[r] == ControlDelivery(c, w, v, session, controller, dispatch, at)
      && c in k.deliveredOn && k.deliveredOn[c] == r
    case ControlAcked(c, r, w, v, _) => r in k.acks && k.acks[r] == Stamped(c, at) && c in k.ackedOn && k.ackedOn[c] == r
  }

  predicate RecordsWork(k: Work, at: int, e: WorkEvent) {
    match e
    case ActionStarted(c, r, w, v, goal, order, acked, phase) =>
      && c in k.actionOf && k.actionOf[c] == r && r in k.actions
      && k.actions[r].(transition := None, resulting := None, result := None)
         == Action(c, w, v, goal, order, acked, phase, at, None, None, None)
    case ActionResult(c, r, w, v, goal, order, started, transition, phase) =>
      && r in k.actions && k.actions[r].control == c && k.actions[r].result == Some(at)
      && k.actions[r].started == started && k.actions[r].transition == Some(transition)
      && k.actions[r].resulting == Some(phase)
    case ExecutionStarted(c, r, w, v, goal, l, ordinal, acked, turn) =>
      && r in k.executions && k.executions[r] == Execution(c, w, v, goal, l, ordinal, acked, turn, at)
      && c in k.executionOf && k.executionOf[c] == r
  }

  /** The state records that the event was appended with sequence number `at`. */
  predicate Records(s: State, at: int, e: Event) {
    match e
    case Top(x) => RecordsTop(s.top, at, x)
    case Prov(x) => RecordsProviders(s.prov, at, x)
    case Routing(x) => RecordsRoutes(s.routes, at, x)
    case Post(x) => RecordsMail(s.mail, at, x)
    case Tool(x) => RecordsTools(s.tools, at, x)
    case Recall(x) => RecordsMemory(s.mem, at, x)
    case Staff(x) => RecordsStaff(s.staff, s.work, at, x)
    case Oversight(x) => RecordsSupervision(s.sup, at, x)
    case Grant(x) => RecordsMandate(s.auth, at, x)
    case Carry(x) => RecordsCarriage(s.car, at, x)
    case Doing(x) => RecordsWork(s.work, at, x)
  }

  lemma NewToolRecorded(s: State, x: ToolEvent)
    requires ToolInv(s.tools, s.routes, s.count) && AcceptsTools(s, x)
    ensures RecordsTools(ApplyTools(s.tools, s.top, s.routes, x, s.count + 1), s.count + 1, x)
  {
  }

  lemma NewRouteRecorded(s: State, e: Event)
    requires e.Top? || e.Prov? || e.Routing? || e.Post? || e.Recall?
    requires GatesInv(s.routes, s.count) && Accepts(s, e)
    ensures Records(Apply(s, e), s.count + 1, e)
  {
  }

  lemma NewRecorded(s: State, e: Event)
    requires Inv(s) && Admits(s, e)
    ensures Records(Apply(s, e), s.count + 1, e)
  {
    hide TopInv, ProviderInv, EndsInv, MailInv, ToolInv, MemoryInv, SupervisionInv, LeaseInv, SingleAuthority,
      CarriageInv, WorkInv;
    if e.Tool? {
      NewToolRecorded(s, e.tool);
    } else if e.Top? || e.Prov? || e.Routing? || e.Post? || e.Recall? {
      NewRouteRecorded(s, e);
    } else {
      hide AcceptsTopology, AcceptsRoutes, AcceptsMail, AcceptsTools, AcceptsMemory, AcceptsProviders, ApplyTop, ApplyRoutes,
        ApplyMail, ApplyTools, ApplyMemory, ApplyProviders, GatesInv;
    }
  }

  lemma TopKept(s: State, at: int, past: TopEvent, x: TopEvent)
    requires RecordsTop(s.top, at, past) && HomeMaps(s.top) && AcceptsTopology(s, x)
    ensures RecordsTop(ApplyTop(s.top, x, s.count + 1), at, past)
  {
  }

  lemma RoutesKept(s: State, at: int, past: RouteEvent, x: RouteEvent)
    requires RecordsRoutes(s.routes, at, past) && at <= s.count && AcceptsRoutes(s, x)
    ensures RecordsRoutes(ApplyRoutes(s.routes, x, s.count + 1), at, past)
  {
  }

  lemma ToolsKept(s: State, at: int, past: ToolEvent, x: ToolEvent)
    requires RecordsTools(s.tools, at, past) && at <= s.count && AcceptsTools(s, x)
    ensures RecordsTools(ApplyTools(s.tools, s.top, s.routes, x, s.count + 1), at, past)
  {
  }

  lemma MandateKept(s: State, at: int, past: MandateEvent, x: MandateEvent)
    requires RecordsMandate(s.auth, at, past) && AcceptsMandate(s, x)
    ensures RecordsMandate(ApplyMandate(s.auth, x, s.count + 1), at, past)
  {
  }

  lemma StaffKept(s: State, at: int, past: StaffEvent, x: StaffEvent)
    requires RecordsStaff(s.staff, s.work, at, past) && at <= s.count && AcceptsWorkers(s, x)
    ensures RecordsStaff(ApplyWorkers(s.staff, x, s.count + 1), MarkTransition(s.work, s.staff, x, s.count + 1), at, past)
  {
  }

  lemma WorkKept(s: State, at: int, past: Event, e: Event)
    requires past.Staff? || past.Doing?
    requires Records(s, at, past) && at <= s.count && Accepts(s, e) && (e.Staff? || e.Doing?)
    ensures Records(Apply(s, e), at, past)
  {
    if past.Staff? && e.Staff? {
      StaffKept(s, at, past.staff, e.staff);
    }
  }

  predicate SameAudit(a: Event, b: Event) {
    match a
    case Top(_) => b.Top?
    case Prov(_) => b.Prov?
    case Routing(_) => b.Routing?
    case Post(_) => b.Post?
    case Tool(_) => b.Tool?
    case Recall(_) => b.Recall?
    case Oversight(_) => b.Oversight?
    case Grant(_) => b.Grant?
    case Carry(_) => b.Carry?
    case _ => b.Staff? || b.Doing?
  }

  lemma OtherAuditsKept(s: State, at: int, past: Event, e: Event)
    requires Records(s, at, past) && !SameAudit(past, e)
    ensures Records(Apply(s, e), at, past)
  {
    hide RecordsTop, RecordsProviders, RecordsRoutes, RecordsMail, RecordsTools, RecordsMemory, RecordsStaff,
      RecordsSupervision, RecordsMandate, RecordsCarriage, RecordsWork;
    hide ApplyTop, ApplyProviders, ApplyRoutes, ApplyMail, ApplyTools, ApplyMemory, ApplyWorkers, MarkTransition,
      ApplySupervision, ApplyMandate, ApplyCarriage, ApplyWork;
  }

  lemma CarriageKept(s: State, at: int, past: CarriageEvent, x: CarriageEvent)
    requires RecordsCarriage(s.car, at, past) && AcceptsCarriage(s, x)
    ensures RecordsCarriage(ApplyCarriage(s.car, s.top.active, s.auth, x, s.count + 1), at, past)
  {
  }

  lemma SimpleAuditsKept(s: State, at: int, past: Event, e: Event)
    requires past.Prov? || past.Post? || past.Recall? || past.Oversight?
    requires Records(s, at, past) && Accepts(s, e) && SameAudit(past, e)
    ensures Records(Apply(s, e), at, past)
  {
  }

  /** An admitted event leaves every earlier record as it was. */
  lemma RecordsKept(s: State, at: int, past: Event, e: Event)
    requires Inv(s) && Records(s, at, past) && at <= s.count && Admits(s, e)
    ensures Records(Apply(s, e), at, past)
  {
    hide RecordsTop, RecordsProviders, RecordsRoutes, RecordsMail, RecordsTools, RecordsMemory, RecordsStaff,
      RecordsSupervision, RecordsMandate, RecordsCarriage, RecordsWork;
    hide ApplyTop, ApplyProviders, ApplyRoutes, ApplyMail, ApplyTools, ApplyMemory, ApplyWorkers, MarkTransition,
      ApplySupervision, ApplyMandate, ApplyCarriage, ApplyWork;
    hide AcceptsTopology, AcceptsProviders, AcceptsRoutes, AcceptsMail, AcceptsTools, AcceptsMemory, AcceptsWorkers,
      AcceptsSupervision, AcceptsMandate, AcceptsCarriage, AcceptsWork, Lawful;
    hide EndpointMaps, HomeMaps, BindingMaps, ProviderInv, GatesInv, EndsInv, MailInv, ToolInv, MemoryInv, StaffInv,
      SupervisionInv, LeaseInv, SingleAuthority, CarriageInv, WorkInv;
    if !SameAudit(past, e) {
      OtherAuditsKept(s, at, past, e);
    } else {
      match past
      case Top(p) => TopKept(s, at, p, e.top);
      case Routing(p) => RoutesKept(s, at, p, e.routing);
      case Tool(p) => ToolsKept(s, at, p, e.tool);
      case Grant(p) => MandateKept(s, at, p, e.grant);
      case Carry(p) => CarriageKept(s, at, p, e.carry);
      case Staff(_) => WorkKept(s, at, past, e);
      case Doing(_) => WorkKept(s, at, past, e);
      case _ => SimpleAuditsKept(s, at, past, e);
    }
  }

  /** The state replayed from a legal journal records every one of its events. */
  lemma {:induction false} Recorded(j: Journal, i: int)
    requires Legal(j) && 0 <= i < |j|
    ensures Records(Folded(j), i + 1, j[i])
    decreases |j|
  {
    hide Legal, Records, Admits, Apply, Inv;
    var k := j[..|j| - 1];
    LegalPrefix(j, |j| - 1);
    LegalReplays(k);
    AdmittedAt(j, |j| - 1);
    if i == |j| - 1 {
      NewRecorded(Folded(k), j[i]);
    } else {
      Recorded(k, i);
      RecordsKept(Folded(k), i + 1, j[i], j[|j| - 1]);
    }
  }
}
