/** What a user's word and a request keep from happening in every later run. */
module Refusals {
  import opened Common
  import opened Events
  import opened Core
  import opened Replaying
  import opened Writer
  import opened Invariant
  import opened Safety
  import opened Log
  import opened Index
  import opened Runs
  import opened Uninterrupted
  import opened Requests
  import opened Acceptance
  import opened RouteTheorems
  import opened ControlActions

  // ---- Decisions

  /** The command gives this decision on the route. */
  predicate Gives(c: Command, r: int, d: RouteDecision) {
    c == DecideMessage(r, d) || c == DecideCall(r, d) || c == DecideControl(r, d)
  }

  lemma GivenIsAppended(s: State, c: Command, r: int, d: RouteDecision)
    requires Gives(c, r, d) && Plan(s, c).Some? && GatesInv(s.routes, s.count)
    ensures Plan(s, c) == Some([Routing(RouteDecided(r, d))]) && r in s.routes && s.routes[r].dispatched.None?
  {
    hide Resolve, Fresh;
    assert GateInv(s.routes[r], s.count);
  }

  /** An accepted decision is the latest one in the journal, and the gate is the one it stands for. */
  lemma DecisionRecorded(steps: seq<Step>, c: Command, r: int, d: RouteDecision)
    requires Gives(c, r, d) && Plan(Folded(Run(steps)), c).Some?
    ensures
      var j := Run(steps + [Uncut(c)]);
      && j == Run(steps) + [Routing(RouteDecided(r, d))] && LastDecision(j, r) == Some(d)
      && r in Folded(j).routes && Folded(j).routes[r].dispatched.None?
      && Folded(j).routes[r].gate == GateFor(Folded(j).routes[r].policy, Some(d))
  {
    hide Run, Folded, Plan, Uncut, Legal, Backed, LastDecision, Apply, ApplyAll, TopInv, ProviderInv, GatesInv, EndsInv, MailInv,
      ToolInv, MemoryInv, StaffInv, SupervisionInv, LeaseInv, SingleAuthority, CarriageInv, WorkInv;
    var all := steps + [Uncut(c)];
    var e := Routing(RouteDecided(r, d));
    RunIndexed(steps);
    GivenIsAppended(Folded(Run(steps)), c, r, d);
    UncutAppends(steps, c, [e]);
    ApplyOne(Folded(Run(steps)), e);
    DecidedGate(Folded(Run(steps)), r, d);
    LastIsGiven(Run(steps), r, d);
  }

  lemma DecidedGate(s: State, r: int, d: RouteDecision)
    requires r in s.routes && s.routes[r].dispatched.None? && GatesInv(s.routes, s.count)
    ensures
      var t := Apply(s, Routing(RouteDecided(r, d)));
      r in t.routes && var route := t.routes[r];
      route.dispatched.None? && route.gate == GateFor(route.policy, Some(d))
  {
    assert GateInv(s.routes[r], s.count);
  }

  lemma LastIsGiven(j: Journal, r: int, d: RouteDecision)
    ensures LastDecision(j + [Routing(RouteDecided(r, d))], r) == Some(d)
  {
  }

  // ---- Where an event of a run comes from

  /** The last of the steps appends the event at this place of the journal. */
  ghost predicate Appends(steps: seq<Step>, i: nat, e: Event)
    requires steps != []
  {
    var before, c := steps[..|steps| - 1], steps[|steps| - 1].command;
    && Plan(Folded(Run(before)), c).Some? && |Run(before)| <= i < |Run(steps)|
    && i - |Run(before)| < |Plan(Folded(Run(before)), c).value| && Plan(Folded(Run(before)), c).value[i - |Run(before)|] == e
  }

  /** Every event of a run was appended by one of its steps. */
  lemma {:induction false} EventHasStep(steps: seq<Step>, i: nat) returns (k: nat)
    requires i < |Run(steps)|
    ensures k < |steps| && Appends(steps[..k + 1], i, Run(steps)[i])
  {
    hide Plan, Legal, Inv, Folded, Replay, After;
    if steps == [] {
      assert false;
    } else {
      var n := |steps| - 1;
      var before := steps[..n];
      RunLegal(before);
      LegalReplays(Run(before));
      AfterPlan(Run(before), steps[n].command, steps[n].cut);
      if i < |Run(before)| {
        k := EventHasStep(before, i);
        assert before[..k + 1] == steps[..k + 1] && Run(steps)[i] == Run(before)[i];
      } else {
        k := n;
        assert steps[..n + 1] == steps;
      }
    }
  }

  lemma RunsGrow(steps: seq<Step>, a: nat, b: nat)
    requires a <= b <= |steps|
    ensures |Run(steps[..a])| <= |Run(steps[..b])|
  {
    hide Run;
    assert steps[..b][..a] == steps[..a];
    RunExtends(steps[..b], a);
  }

  /** Only the three decision commands append a decision, and they append the one they give. */
  lemma DecisionsAreGiven(s: State, c: Command, i: nat, r: int, d: RouteDecision)
    requires Plan(s, c).Some? && i < |Plan(s, c).value| && Plan(s, c).value[i] == Routing(RouteDecided(r, d))
    ensures Gives(c, r, d)
  {
    hide SeatOf, EntryOf, Resolve, Fresh, RebuiltGate, Executable, Decidable, AcceptsTools, AcceptsTopology, SupervisesWorker,
      PlanAdmission, PlanProposeControl;
    if c.ProposeControl? {
      ProposalPlanned(s, c.controller, c.subject, c.control, c.route, c.ask);
      var w := s.staff.bindings[c.subject];
      AdmissionCarries(s, w, s.staff.lives[w].lifecycle.goal.value, s.staff.lives[w].lifecycle, c.ask);
    }
  }

  /** The latest decision is an event of the journal. */
  lemma {:induction false} LastDecisionIsEvent(j: Journal, r: int, n: nat) returns (i: nat)
    requires LastDecision(j, r) == Some(Allow) && n < |j| && Decides(j[n], r) && j[n].routing.decision.Deny?
    ensures n < i < |j| && j[i] == Routing(RouteDecided(r, Allow))
  {
    if Decides(j[|j| - 1], r) {
      i := |j| - 1;
    } else {
      i := LastDecisionIsEvent(j[..|j| - 1], r, n);
    }
  }

  /** The event sends what the route carries: its dispatch, or the delivery of a message or a control. */
  predicate Sends(e: Event, r: int) {
    || (e.Routing? && e.routing.RouteDispatched? && e.routing.route == r)
    || (e.Post? && e.post.RouteDelivered? && e.post.route == r)
    || (e.Carry? && e.carry.ControlDelivered? && e.carry.route == r)
    || (e.Tool? && e.tool.ToolOutcome? && e.tool.route == r)
  }

  /** Nothing is sent over a route before its dispatch. */
  lemma {:induction false} SentIsDispatched(j: Journal, k: nat, r: int) returns (m: nat)
    requires Legal(j) && k < |j| && Sends(j[k], r)
    ensures m <= k && j[m].Routing? && j[m].routing.RouteDispatched? && j[m].routing.route == r
  {
    hide Legal, Folded, Inv, BackedTop, BackedProviders, BackedMail, BackedTools, BackedMemory, BackedMandate, BackedCarriage, BackedWork;
    hide Resolve, ByteLength, Blank, Lawful;
    if j[k].Routing? {
      m := k;
    } else {
      AdmittedAt(j, k);
      LegalPrefix(j, k);
      StateBacked(j[..k]);
      var route := Folded(j[..k]).routes[r];
      assert Holds(j[..k], route.dispatched.value, Routing(RouteDispatched(r, route.gate.grant)));
      m := route.dispatched.value - 1;
    }
  }

  /** After the user's Deny of a route nothing is sent over it, in any later run with any crashes, unless
      the user says Allow first. */
  lemma {:induction false} DenyHolds(steps: seq<Step>, c: Command, r: int, later: seq<Step>, k: nat)
    requires Gives(c, r, Deny) && Plan(Folded(Run(steps)), c).Some?
    requires
      var all := steps + [Uncut(c)] + later;
      |Run(steps)| <= k < |Run(all)| && Sends(Run(all)[k], r)
    ensures exists i :: 0 <= i < |later| && Gives(later[i].command, r, Allow)
  {
    hide Run, Folded, Plan, Legal, Inv, LastDecision, Gives, Backed, Uncut;
    var denied := steps + [Uncut(c)];
    var all := denied + later;
    var j, n := Run(all), |Run(steps)|;
    RunIndexed(all);
    DecisionRecorded(steps, c, r, Deny);
    assert all[..|denied|] == denied;
    RunExtends(all, |denied|);
    assert j[..n + 1] == Run(denied) && j[n] == Run(denied)[n];
    var m := SentIsDispatched(j, k, r);
    LegalPrefix(j, n + 1);
    if m <= n {
      Recorded(j[..n + 1], m);
      assert false;
    }
    DispatchAuthority(all, m);
    assert Decides(j[n], r) && j[..m][n] == j[n];
    var i := LastDecisionIsEvent(j[..m], r, n);
    var q := EventHasStep(all, i);
    if q < |denied| {
      RunsGrow(all, q + 1, |denied|);
      assert false;
    }
    assert all[..q + 1][..q] == all[..q] && all[..q + 1][q] == later[q - |denied|];
    DecisionsAreGiven(Folded(Run(all[..q])), later[q - |denied|].command, i - |Run(all[..q])|, r, Allow);
  }

  // ---- Orders

  /** A lifecycle event that some control caused. */
  predicate CausedByControl(e: Event, id: int) {
    e.Staff? && e.staff.Transition? && e.staff.cause.Some? && e.staff.cause.value.control == id
  }

  /** In every run only controls that start or stop a worker cause a lifecycle event. */
  lemma {:induction false} CausesAreOrders(steps: seq<Step>, k: nat, id: int)
    requires k < |Run(steps)| && CausedByControl(Run(steps)[k], id)
    ensures id in Folded(Run(steps)).auth.controls
    ensures Folded(Run(steps)).auth.controls[id].order.Start? || Folded(Run(steps)).auth.controls[id].order.Halt?
  {
    hide Run, Folded, Legal, Backed, TopInv, ProviderInv, GatesInv, EndsInv, MailInv, ToolInv, MemoryInv, StaffInv, SupervisionInv,
      LeaseInv, SingleAuthority, CarriageInv;
    var j := Run(steps);
    RunIndexed(steps);
    Recorded(j, k);
    var a := Folded(j).work.actions[j[k].staff.cause.value.route];
    assert ActionInv(a, j[k].staff.cause.value.route, Folded(j).car, Folded(j).auth.controls, |j|);
  }

  /** The order a control was admitted with is the order it keeps. */
  lemma {:induction false} OrderKept(steps: seq<Step>, n: nat, id: int)
    requires n <= |steps| && id in Folded(Run(steps[..n])).auth.controls
    ensures id in Folded(Run(steps)).auth.controls
    ensures Folded(Run(steps)).auth.controls[id].order == Folded(Run(steps[..n])).auth.controls[id].order
  {
    hide Run, Folded, Legal, Inv, BackedTop, BackedProviders, BackedRoutes, BackedMail, BackedTools, BackedMemory, BackedCarriage,
      BackedWork;
    RunIndexed(steps[..n]);
    RunIndexed(steps);
    RunExtends(steps, n);
    var x := Folded(Run(steps[..n])).auth.controls[id];
    Recorded(Run(steps), x.at - 1);
  }

  /** A control proposed as a status request, or as a Continue, never moves its worker, whatever runs later. */
  lemma {:induction false} RequestsMoveNothing(steps: seq<Step>, cv: int, wv: int, id: int, r: int, ask: ControlAction,
                                               later: seq<Step>, k: nat)
    requires ask.AskStatus? || ask.AskContinue?
    requires Plan(Folded(Run(steps)), ProposeControl(cv, wv, id, r, ask)).Some?
    requires k < |Run(steps + [Uncut(ProposeControl(cv, wv, id, r, ask))] + later)|
    ensures !CausedByControl(Run(steps + [Uncut(ProposeControl(cv, wv, id, r, ask))] + later)[k], id)
  {
    hide Run, Folded, Plan, Uncut, OpenPermits, LiveLeases;
    hide HonoursTopology, HonoursMail, HonoursTools, HonoursMemory, HonoursStaff;
    var c := ProposeControl(cv, wv, id, r, ask);
    var proposed := steps + [Uncut(c)];
    var all := proposed + later;
    RequestHonoured(steps, c);
    assert all[..|proposed|] == proposed;
    OrderKept(all, |proposed|, id);
    if CausedByControl(Run(all)[k], id) {
      CausesAreOrders(all, k, id);
    }
  }

  // ---- Stale sessions

  /** The session left its place or is no longer fit for ordinary turns. */
  predicate Stale(t: Topology, session: int) {
    && session in t.home && t.home[session] in t.containers
    && var box := t.containers[t.home[session]];
    && session in box.members && (box.current != session || box.members[session].phase.Saturated? || box.members[session].phase.Retired?)
  }

  lemma TopologyStaysStale(s: State, x: TopEvent, session: int)
    requires TopInv(s.top, s.count) && AcceptsTopology(s, x) && Stale(s.top, session)
    ensures Stale(ApplyTop(s.top, x, s.count + 1), session)
  {
    hide EndpointMaps, BindingMaps;
  }

  lemma StaysStale(s: State, e: Event, session: int)
    requires TopInv(s.top, s.count) && Accepts(s, e) && Stale(s.top, session)
    ensures Stale(Apply(s, e).top, session)
  {
    hide Stale, TopInv, AcceptsTopology, AcceptsProviders, AcceptsRoutes, AcceptsMail, AcceptsTools, AcceptsMemory, AcceptsWorkers,
      AcceptsSupervision, AcceptsMandate, AcceptsCarriage, AcceptsWork;
    hide ApplyTop, ApplyProviders, ApplyRoutes, ApplyMail, ApplyTools, ApplyMemory, ApplyWorkers, ApplySupervision, ApplyMandate,
      ApplyCarriage, ApplyWork, MarkTransition;
    if e.Top? {
      TopologyStaysStale(s, e.top, session);
    }
  }

  lemma {:induction false} AlwaysStale(j: Journal, n: nat, session: int)
    requires Legal(j) && n <= |j| && Stale(Folded(j[..n]).top, session)
    ensures Stale(Folded(j).top, session)
    decreases |j|
  {
    hide Legal, Stale, Apply, Accepts, Lawful, TopInv, ProviderInv, GatesInv, EndsInv, MailInv, ToolInv, MemoryInv, StaffInv,
      SupervisionInv, LeaseInv, SingleAuthority, CarriageInv, WorkInv;
    if n == |j| {
      assert j[..n] == j;
    } else {
      var k := j[..|j| - 1];
      LegalPrefix(j, |j| - 1);
      assert k[..n] == j[..n];
      AlwaysStale(k, n, session);
      LegalReplays(k);
      AdmittedAt(j, |j| - 1);
      StaysStale(Folded(k), j[|j| - 1], session);
    }
  }

  lemma StaleIsNotCurrent(t: Topology, n: int, session: int)
    requires TopInv(t, n) && Stale(t, session)
    ensures !CurrentLeaf(t, session)
  {
  }

  /** Once the session a call came from is saturated or replaced, no adapter ever executes the call,
      whatever runs later. */
  lemma {:induction false} StaleCallNeverRuns(steps: seq<Step>, n: nat, c: Command)
    requires n <= |steps| && c.Execute? && c.route in Folded(Run(steps)).tools.routeOwner
    requires Folded(Run(steps)).tools.routeOwner[c.route] in Folded(Run(steps)).tools.calls
    requires
      var call := Folded(Run(steps)).tools.calls[Folded(Run(steps)).tools.routeOwner[c.route]];
      Stale(Folded(Run(steps[..n])).top, call.session)
    ensures Plan(Folded(Run(steps)), c).None?
  {
    hide Run, Folded, Legal, Plan, Stale, Backed, TopInv, ProviderInv, GatesInv, EndsInv, MailInv, ToolInv, MemoryInv, StaffInv,
      SupervisionInv, LeaseInv, SingleAuthority, CarriageInv, WorkInv, CurrentLeaf;
    var s := Folded(Run(steps));
    var session := s.tools.calls[s.tools.routeOwner[c.route]].session;
    RunIndexed(steps);
    RunExtends(steps, n);
    var j, earlier := Run(steps), Run(steps[..n]);
    assert j[..|earlier|] == earlier;
    AlwaysStale(j, |earlier|, session);
    StaleIsNotCurrent(s.top, s.count, session);
    AcceptedExactly(steps, c);
  }
}
