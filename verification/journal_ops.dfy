/** The checked appends of apps/desktop/src/journal_ops.rs as methods over an event store.

    Each method replays the journal, checks its guards in the source's order, appends one event at a
    time, replays again and compares. `room` is how many appends still succeed, so that a failing
    append stops the method exactly where a crash could. Every method is proved to leave the journal
    `After` says, and on a legal journal none of them ever reports a disagreement. */
module JournalOps {
  import opened Common
  import opened Events
  import opened Core
  import opened Replaying
  import opened Writer
  import opened Invariant
  import opened Safety
  import opened Log
  import opened Index
  import opened Runs

  datatype Verdict = Done | Refused | StorageFailed | Disagreed

  class EventStore {
    var events: Journal
    var room: nat

    constructor (appends: nat)
      ensures events == [] && room == appends
    {
      events, room := [], appends;
    }

    method Append(e: Event) returns (ok: bool)
      modifies this
      ensures ok <==> old(room) > 0
      ensures events == if ok then old(events) + [e] else old(events)
      ensures room == if ok then old(room) - 1 else 0
    {
      ok := room > 0;
      if ok {
        events, room := events + [e], room - 1;
      }
    }
  }

  /** The method did what the command plans: all of it, none of it, or a prefix when storage failed. */
  ghost predicate Performs(before: Journal, c: Command, room: nat, after: Journal, v: Verdict) {
    Legal(before) ==>
      && after == After(before, Step(c, room))
      && match Plan(Folded(before), c)
         case None => v.Refused?
         case Some(events) => v == if |events| <= room then Done else StorageFailed
  }

  /** A durable prefix of a plan replays, and the state moves by exactly the last event. */
  lemma PrefixReplays(j: Journal, c: Command, k: nat)
    requires Legal(j) && Plan(Folded(j), c).Some? && k < |Plan(Folded(j), c).value|
    ensures
      var plan := Plan(Folded(j), c).value;
      var shorter, longer := j + plan[..k], j + plan[..k + 1];
      && longer == shorter + [plan[k]] && Legal(shorter) && Legal(longer)
      && Replay(shorter) == Some(Folded(shorter)) && Replay(longer) == Some(Folded(longer))
      && Folded(shorter).count == |shorter| && Folded(longer) == Apply(Folded(shorter), plan[k])
      && Inv(Folded(shorter)) && Inv(Folded(longer))
  {
    hide Legal, Plan, Apply, Inv, AdmitsAll;
    var plan := Plan(Folded(j), c).value;
    var shorter, longer := j + plan[..k], j + plan[..k + 1];
    LegalReplays(j);
    PlanAdmitted(Folded(j), c);
    PlannedPrefixLegal(j, plan, k);
    PlannedPrefixLegal(j, plan, k + 1);
    LegalReplays(shorter);
    LegalReplays(longer);
    assert longer == shorter + [plan[k]];
    assert longer[..|shorter|] == shorter;
  }

  lemma {:induction false} LegalState(j: Journal)
    ensures Legal(j) ==> Replay(j) == Some(Folded(j)) && Inv(Folded(j)) && Folded(j).count == |j|
  {
    hide Legal, Inv, Folded, Replay;
    if Legal(j) {
      LegalReplays(j);
    }
  }

  lemma ShorterLegal(shorter: Journal, longer: Journal)
    requires shorter <= longer
    ensures Legal(longer) ==> Legal(shorter)
  {
    hide Legal;
    if Legal(longer) {
      LegalPrefix(longer, |shorter|);
      assert longer[..|shorter|] == shorter;
    }
  }

  /** Any command, appended event by event. */
  method Perform(store: EventStore, c: Command) returns (v: Verdict)
    modifies store
    ensures Performs(old(store.events), c, old(store.room), store.events, v)
    ensures old(store.events) <= store.events
  {
    hide Legal, Plan, Folded, Apply, Inv, Replay, After;
    ghost var before := store.events;
    LegalState(before);
    var state := Replay(store.events);
    if state.None? {
      return Refused;
    }
    var plan := Plan(state.value, c);
    if Legal(before) {
      AfterPlan(before, c, store.room);
    }
    if plan.None? {
      return Refused;
    }
    var i := 0;
    while i < |plan.value|
      invariant 0 <= i <= |plan.value| && store.events == before + plan.value[..i] && old(store.room) == store.room + i
    {
      var ok := store.Append(plan.value[i]);
      if !ok {
        return StorageFailed;
      }
      i := i + 1;
      assert before + plan.value[..i] == (before + plan.value[..i - 1]) + [plan.value[i - 1]];
    }
    if Legal(before) && |plan.value| > 0 {
      PrefixReplays(before, c, |plan.value| - 1);
    }
    assert before + plan.value[..i] == before + plan.value;
    var replayed := Replay(store.events);
    v := if replayed.None? then Disagreed else Done;
  }

  /** Authorises and appends the dispatch of an allowed route; an already dispatched one only reports
      its durable sequence. */
  method DispatchRoute(store: EventStore, s: State, r: int) returns (v: Verdict, dispatch: int)
    requires r in s.routes && s.count == |store.events|
    modifies store
    ensures DispatchPart(s, r).None? ==> v.Refused? && store.events == old(store.events)
    ensures DispatchPart(s, r).Some? ==>
      var part := DispatchPart(s, r).value;
      |part| <= 1 &&
      if |part| > old(store.room) then v.StorageFailed? && store.events == old(store.events)
      else && v.Done? && store.events == old(store.events) + part && store.room == old(store.room) - |part|
           && dispatch == DispatchSequence(s, r)
  {
    var route := s.routes[r];
    dispatch := 0;
    match route.gate {
      case Allowed(_) =>
        var gate := RebuiltGate(route);
        if gate != Some(route.gate) {
          return Refused, 0;
        }
        var permit := AuthorizeDispatch(gate.value);
        var ok := store.Append(Routing(RouteDispatched(r, permit.value)));
        if !ok {
          return StorageFailed, 0;
        }
        return Done, |store.events|;
      case Dispatched(_) =>
        if route.dispatched.None? {
          return Refused, 0;
        }
        return Done, route.dispatched.value;
      case _ => return Refused, 0;
    }
  }

  // ---- append_local_route_dispatch_and_delivery_checked

  /** What the two replays inside a delivery find. */
  lemma {:induction false} DeliveryDurable(j: Journal, r: int)
    requires Legal(j) && PlanDeliverMessage(Folded(j), r).Some?
    ensures
      var s := Folded(j);
      var part, plan := DispatchPart(s, r).value, PlanDeliverMessage(s, r).value;
      var dispatched, delivered := Replay(j + part), Replay(j + plan);
      && |plan| == |part| + 1 && j + plan == j + part + [plan[|part|]]
      && dispatched.Some? && r in dispatched.value.routes && dispatched.value.routes[r].gate.Dispatched?
      && dispatched.value.routes[r].dispatched == Some(DispatchSequence(s, r))
      && delivered.Some? && r in delivered.value.mail.deliveries && plan[|part|].Post?
      && RecordsMail(delivered.value.mail, |j + plan|, plan[|part|].post)
  {
    hide Legal, Folded, Inv, Replay;
    var s := Folded(j);
    var part, plan := DispatchPart(s, r).value, PlanDeliverMessage(s, r).value;
    PrefixReplays(j, DeliverMessage(r), 0);
    PrefixReplays(j, DeliverMessage(r), |part|);
    assert j + plan[..0] == j && plan[..|part|] == part && plan[..|part| + 1] == plan;
    hide Apply;
    Recorded(j + plan, |j + plan| - 1);
  }

  method AppendDispatchAndDelivery(store: EventStore, r: int) returns (v: Verdict)
    modifies store
    ensures Performs(old(store.events), DeliverMessage(r), old(store.room), store.events, v)
    ensures old(store.events) <= store.events
  {
    hide Legal, Folded, Inv, Replay, After, Apply;
    ghost var before, c := store.events, DeliverMessage(r);
    LegalState(before);
    if Legal(before) {
      AfterPlan(before, c, store.room);
    }
    var state := Replay(store.events);
    if state.None? {
      return Refused;
    }
    var s := state.value;
    if r in s.mail.deliveries || r !in s.mail.payloads || r !in s.routes {
      return Refused;
    }
    var payload, route := s.mail.payloads[r], s.routes[r];
    if !route.request.category.SessionMessage? || !route.policy.RequireApproval? {
      return Refused;
    }
    var source, destination := Resolve(s.top, route.request.source), Resolve(s.top, route.request.destination);
    if source.None? || destination.None? {
      return Refused;
    }
    if source.value.conversation != payload.sender || destination.value.conversation != payload.receiver {
      return Refused;
    }
    if !source.value.phase.AcceptsOrdinaryTurns() || !destination.value.phase.AcceptsOrdinaryTurns() {
      return Refused;
    }
    var stage, dispatch := DispatchRoute(store, s, r);
    if !stage.Done? {
      return stage;
    }
    if Legal(before) {
      DeliveryDurable(before, r);
    }
    var dispatched := Replay(store.events);
    if dispatched.None? || r !in dispatched.value.routes || !dispatched.value.routes[r].gate.Dispatched?
       || dispatched.value.routes[r].dispatched != Some(dispatch) {
      return Disagreed;
    }
    var e := RouteDelivered(r, payload.id, payload.sender, payload.receiver, source.value.session,
                            destination.value.session, dispatch);
    var ok := store.Append(Post(e));
    if !ok {
      return StorageFailed;
    }
    var delivered := Replay(store.events);
    if delivered.None? || r !in delivered.value.mail.deliveries
       || delivered.value.mail.deliveries[r].(at := 0)
          != Delivery(payload.id, payload.sender, payload.receiver, source.value.session, destination.value.session, dispatch, 0) {
      return Disagreed;
    }
    return Done;
  }

  // ---- append_controller_control_dispatch_checked

  lemma {:induction false} LivesStay(j: Journal, k: int, w: int)
    requires Legal(j) && 0 <= k <= |j| && w in Folded(j[..k]).staff.lives
    ensures w in Folded(j).staff.lives
    decreases |j|
  {
    hide Legal, Apply, Admits;
    if k == |j| {
      assert j[..k] == j;
    } else {
      var shorter := j[..|j| - 1];
      assert shorter[..k] == j[..k];
      LegalPrefix(j, |j| - 1);
      LivesStay(shorter, k, w);
      LivesGrow(Folded(shorter), j[|j| - 1], w);
    }
  }

  lemma LivesGrow(s: State, e: Event, w: int)
    requires w in s.staff.lives
    ensures w in Apply(s, e).staff.lives
  {
    hide ApplyTop, ApplyProviders, ApplyRoutes, ApplyMail, ApplyTools, ApplyMemory, MarkTransition, ApplySupervision,
      ApplyMandate, ApplyCarriage, ApplyWork;
  }

  /** The worker of every admitted control is owned by a conversation. */
  lemma ControlWorkerOwned(j: Journal, c: int)
    requires Legal(j) && c in Folded(j).auth.controls
    ensures Folded(j).auth.controls[c].worker in Folded(j).staff.owner
  {
    hide Legal, Folded, TopInv, ProviderInv, GatesInv, EndsInv, MailInv, ToolInv, MemoryInv, SupervisionInv, LeaseInv,
      SingleAuthority, CarriageInv, WorkInv, BackedTop, BackedProviders, BackedRoutes, BackedMail, BackedTools, BackedMemory,
      BackedCarriage, BackedWork;
    var control := Folded(j).auth.controls[c];
    LegalReplays(j);
    StateBacked(j);
    assert Holds(j, control.at, Grant(ControlAdmitted(c, control.worker, control.goal, control.order, control.permit)));
    AdmittedAt(j, control.at - 1);
    assert Fresh(Folded(j[..control.at - 1]), Control(control.worker, control.goal, control.order, control.permit, 0));
    LivesStay(j, control.at - 1, control.worker);
    assert control.worker in Folded(j).staff.lives;
  }

  /** An accepted control dispatch always ends in the delivery, under the user's authority. */
  lemma ControlDispatchShape(s: State, r: int)
    requires CarriageInv(s.car, s.auth.controls, s.routes, s.count) && GatesInv(s.routes, s.count)
    requires PlanDispatchControl(s, r).Some? && s.auth.controls[s.car.controlOf[r]].worker in s.staff.owner
    ensures
      var part, plan := DispatchPart(s, r).value, PlanDispatchControl(s, r).value;
      && s.routes[r].gate.grant.User? && |plan| == |part| + 1 && part == plan[..|part|] && plan[|part|].Carry?
      && part == if s.routes[r].gate.Allowed? then [Routing(RouteDispatched(r, User))] else []
  {
    CarriesControls(s, r);
  }

  /** What the replay after the dispatch finds. */
  lemma {:induction false} ControlDispatchDurable(j: Journal, r: int)
    requires Legal(j) && PlanDispatchControl(Folded(j), r).Some?
    ensures
      var s := Folded(j);
      var part := DispatchPart(s, r).value;
      var dispatched := Replay(j + part);
      && s.auth.controls[s.car.controlOf[r]].worker in s.staff.owner && s.routes[r].gate.grant.User?
      && dispatched.Some? && r in dispatched.value.routes && dispatched.value.routes[r].gate == Dispatched(User)
      && dispatched.value.routes[r].dispatched == Some(DispatchSequence(s, r))
      && dispatched.value.staff.owner == s.staff.owner
  {
    hide Legal, Folded, Replay, TopInv, ProviderInv, EndsInv, MailInv, ToolInv, MemoryInv, StaffInv, SupervisionInv, LeaseInv,
      SingleAuthority, WorkInv, CarriageInv, GatesInv;
    var s := Folded(j);
    LegalReplays(j);
    ControlWorkerOwned(j, s.car.controlOf[r]);
    ControlDispatchShape(s, r);
    var part, plan := DispatchPart(s, r).value, PlanDispatchControl(s, r).value;
    hide PlanDispatchControl, RebuiltGate;
    PrefixReplays(j, DispatchControl(r), 0);
    assert j + plan[..0] == j;
  }

  /** What the replay after the delivery finds. */
  lemma DispatchKeys(s: State, r: int)
    requires PlanDispatchControl(s, r).Some?
    ensures r in s.car.controlOf && s.car.controlOf[r] in s.auth.controls && r in s.routes && DispatchPart(s, r).Some?
  {
  }

  lemma {:induction false} ControlDeliveryDurable(j: Journal, r: int)
    requires Legal(j) && PlanDispatchControl(Folded(j), r).Some?
    ensures
      var s := Folded(j);
      var part, plan := DispatchPart(s, r).value, PlanDispatchControl(s, r).value;
      && |plan| == |part| + 1 && j + plan == j + part + [plan[|part|]] && plan[|part|].Carry?
      && Replay(j + plan).Some? && RecordsCarriage(Replay(j + plan).value.car, |j + plan|, plan[|part|].carry)
  {
    hide Legal, Folded, Replay, CarriageInv, GatesInv, PlanDispatchControl, RebuiltGate, DispatchPart, Apply, TopInv, ProviderInv,
      EndsInv, MailInv, ToolInv, MemoryInv, StaffInv, SupervisionInv, LeaseInv, SingleAuthority, WorkInv;
    var s := Folded(j);
    LegalReplays(j);
    DispatchKeys(s, r);
    ControlWorkerOwned(j, s.car.controlOf[r]);
    ControlDispatchShape(s, r);
    var part, plan := DispatchPart(s, r).value, PlanDispatchControl(s, r).value;
    PrefixReplays(j, DispatchControl(r), |part|);
    assert plan[..|part| + 1] == plan;
    Recorded(j + plan, |j + plan| - 1);
  }

  /** A route that carries a control is an orchestration route, which only the user can allow. */
  lemma CarriesControls(s: State, r: int)
    requires CarriageInv(s.car, s.auth.controls, s.routes, s.count) && GatesInv(s.routes, s.count)
    ensures r in s.car.controlOf && r in s.routes ==> s.routes[r].policy.RequireApproval?
    ensures r in s.car.controlOf && r in s.routes && s.routes[r].gate.Allowed? ==> s.routes[r].gate.grant.User?
    ensures r in s.car.controlOf && r in s.routes && s.routes[r].gate.Dispatched? ==> s.routes[r].gate.grant.User?
  {
  }

  method AppendControlDispatch(store: EventStore, r: int) returns (v: Verdict)
    modifies store
    ensures Performs(old(store.events), DispatchControl(r), old(store.room), store.events, v)
    ensures old(store.events) <= store.events
  {
    hide Legal, Folded, Inv, Replay, After, Apply, DispatchPart, DispatchSequence, Fresh;
    ghost var before, command := store.events, DispatchControl(r);
    LegalState(before);
    if Legal(before) {
      AfterPlan(before, command, store.room);
    }
    var state := Replay(store.events);
    if state.None? {
      return Refused;
    }
    var s := state.value;
    if r in s.car.deliveries || r !in s.car.controlOf || s.car.controlOf[r] !in s.auth.controls
       || s.car.controlOf[r] !in s.car.issuers || s.car.controlOf[r] !in s.car.routeOf || r !in s.routes {
      return Refused;
    }
    var c := s.car.controlOf[r];
    var w := s.auth.controls[c].worker;
    if s.routes[r].gate.Allowed? && !Fresh(s, s.auth.controls[c]) {
      return Refused;
    }
    var stage, dispatch := DispatchRoute(store, s, r);
    if !stage.Done? {
      return stage;
    }
    if Legal(before) {
      ControlDispatchDurable(before, r);
      ControlDeliveryDurable(before, r);
    }
    var dispatched := Replay(store.events);
    if dispatched.None? || r !in dispatched.value.routes || dispatched.value.routes[r].gate != Dispatched(User)
       || dispatched.value.routes[r].dispatched != Some(dispatch) {
      return Disagreed;
    }
    if w !in dispatched.value.staff.owner {
      return Refused;
    }
    var conversation, session, controller := dispatched.value.staff.owner[w], s.car.routeOf[c].session, s.car.issuers[c].id;
    var ok := store.Append(Carry(ControlDelivered(c, r, w, conversation, session, controller, dispatch)));
    if !ok {
      return StorageFailed;
    }
    var delivered := Replay(store.events);
    if delivered.None? || r !in delivered.value.car.deliveries
       || delivered.value.car.deliveries[r].(at := 0)
          != ControlDelivery(c, w, conversation, session, controller, dispatch, 0) {
      return Disagreed;
    }
    return Done;
  }

  // ---- append_tool_call_outcome_checked, append_builtin_hello_checked

  method AppendOutcome(store: EventStore, id: int, r: int, kind: OutcomeKind, text: string) returns (v: Verdict)
    modifies store
    ensures Performs(old(store.events), RecordOutcome(id, r, kind, text), old(store.room), store.events, v)
    ensures old(store.events) <= store.events
  {
    v := Perform(store, RecordOutcome(id, r, kind, text));
  }

  /** After the dispatch of an execution, its prepared result is recordable exactly when it is not too large. */
  /** What the outcome append plans. */
  function RecordOutcomePlan(s: State, id: int, r: int, text: string): Planned {
    Plan(s, RecordOutcome(id, r, OutcomeKind.Result, text))
  }

  lemma DispatchPlanned(s: State, r: int, text: string)
    requires Executable(s, r)
    ensures Plan(s, Execute(HostShell, r, true, text)) == Some([Routing(RouteDispatched(r, s.routes[r].gate.grant))])
  {
    var d := Routing(RouteDispatched(r, s.routes[r].gate.grant));
    hide Executable;
    assert [d] + [] == [d];
  }

  lemma DispatchedRecordable(s: State, r: int, text: string)
    requires Inv(s) && Executable(s, r)
    ensures
      var id := s.tools.routeOwner[r];
      RecordOutcomePlan(Apply(s, Routing(RouteDispatched(r, s.routes[r].gate.grant))), id, r, text)
      == if ByteLength(text) <= MAX_OUTCOME_BYTES then Some([Tool(ToolOutcome(id, r, OutcomeKind.Result, text))]) else None
  {
    hide TopInv, ProviderInv, GatesInv, EndsInv, MailInv, MemoryInv, StaffInv, SupervisionInv, LeaseInv, SingleAuthority, WorkInv,
      CarriageInv, Resolve, ByteLength;
    assert CallInv(s.tools, s.tools.routeOwner[r], s.routes, s.count);
  }

  lemma {:induction false} OutcomeFollowsDispatch(j: Journal, r: int, text: string)
    requires Legal(j) && Executable(Folded(j), r)
    ensures
      var s := Folded(j);
      var dispatched := j + [Routing(RouteDispatched(r, s.routes[r].gate.grant))];
      && Legal(dispatched)
      && RecordOutcomePlan(Folded(dispatched), s.tools.routeOwner[r], r, text)
         == if ByteLength(text) <= MAX_OUTCOME_BYTES then Some([Tool(ToolOutcome(s.tools.routeOwner[r], r, OutcomeKind.Result, text))])
            else None
  {
    hide Legal, Folded, Replay, Inv, Apply, Executable, ByteLength, RecordOutcomePlan;
    var s := Folded(j);
    LegalReplays(j);
    DispatchPlanned(s, r, text);
    var command := Execute(HostShell, r, true, text);
    var plan := Plan(s, command).value;
    PrefixReplays(j, command, 0);
    assert j + plan[..0] == j && plan[..1] == plan;
    DispatchedRecordable(s, r, text);
  }

  /** The restricted builtin adapter: `ready` says that it supports the call and prepared `text`. */
  method AppendBuiltinResult(store: EventStore, r: int, ready: bool, text: string) returns (v: Verdict)
    modifies store
    ensures Legal(old(store.events)) ==>
      && store.events == After(old(store.events), Step(Execute(Builtin, r, ready, text), old(store.room)))
      && (v.Done? <==> ready && Executable(Folded(old(store.events)), r) && ByteLength(text) <= MAX_OUTCOME_BYTES && old(store.room) >= 2)
      && !v.Disagreed?
  {
    hide Legal, Folded, Inv, Replay, After, Apply;
    ghost var before, command := store.events, Execute(Builtin, r, ready, text);
    LegalState(before);
    if Legal(before) {
      AfterPlan(before, command, store.room);
    }
    var state := Replay(store.events);
    if state.None? || !ready {
      return Refused;
    }
    var s := state.value;
    if r !in s.tools.routeOwner || s.tools.routeOwner[r] !in s.tools.calls {
      return Refused;
    }
    var id := s.tools.routeOwner[r];
    var call := s.tools.calls[id];
    if call.provider !in s.prov.table || r !in s.routes {
      return Refused;
    }
    var route, endpoint := s.routes[r], s.prov.table[call.provider].endpoint;
    if !route.request.category.ToolCall? || !Authorized(route) || id in s.tools.outcomes || r in s.tools.outcomeOwner {
      return Refused;
    }
    var source := Resolve(s.top, route.request.source);
    if source.None? || source.value.session != call.session || !source.value.phase.AcceptsOrdinaryTurns() {
      return Refused;
    }
    if endpoint.None? || endpoint.value.id != route.request.destination {
      return Refused;
    }
    if RebuiltGate(route) != Some(route.gate) {
      return Refused;
    }
    if Legal(before) {
      OutcomeFollowsDispatch(before, r, text);
    }
    var ok := store.Append(Routing(RouteDispatched(r, route.gate.grant)));
    if !ok {
      return StorageFailed;
    }
    ghost var dispatched := store.events;
    if Legal(before) {
      LegalState(dispatched);
      AfterPlan(dispatched, RecordOutcome(id, r, OutcomeKind.Result, text), store.room);
    }
    v := AppendOutcome(store, id, r, OutcomeKind.Result, text);
  }

  // ---- append_worker_control_action_checked

  /** One durable phase followed by the rest of the command is the whole command. */
  lemma {:induction false} PhaseComposes(j: Journal, c: Command, room: nat, after: Journal, v: Verdict)
    requires Legal(j) && Resumable(c) && Plan(Folded(j), c).Some? && |Plan(Folded(j), c).value| > 1 && room > 0
    requires Performs(j + [Plan(Folded(j), c).value[0]], c, room - 1, after, v)
    ensures Performs(j, c, room, after, v)
  {
    hide Legal, Inv, Apply, Plan, Folded, After, Replay;
    LegalReplays(j);
    FirstAppend(j, c);
    ResumableResumes(Folded(j), c);
    var plan := Plan(Folded(j), c).value;
    var next := j + [plan[0]];
    AfterPlan(j, c, room);
    AfterPlan(next, c, room - 1);
    assert next + plan[1..][..Min(room - 1, |plan| - 1)] == j + plan[..Min(room, |plan|)];
  }

  /** The open action of the conversation on this route, as its inbox item describes it. */
  predicate OpenAction(s: State, v: int, r: int, id: int, w: int, goal: int, order: ControlKind) {
    && Actionable(s, v, r) && r in s.work.actions && SameProvenance(s, v, r) && s.work.actions[r].result.None?
    && s.car.deliveries[r].control == id && s.car.deliveries[r].worker == w
    && s.auth.controls[id].goal == goal && s.auth.controls[id].order == order && ActionOf(order).Some?
  }

  /** Phase three: the result of a transition that is already durable. */
  method AppendActionResult(store: EventStore, v: int, r: int, ghost id: int, ghost w: int, ghost goal: int,
                            ghost order: ControlKind) returns (verdict: Verdict)
    requires Legal(store.events) ==>
      && OpenAction(Folded(store.events), v, r, id, w, goal, order)
      && Folded(store.events).work.actions[r].transition.Some?
    modifies store
    ensures Performs(old(store.events), ApplyControl(v, r), old(store.room), store.events, verdict)
    ensures old(store.events) <= store.events
  {
    hide Legal, Folded, Inv, Replay, After, Apply;
    ghost var before, command := store.events, ApplyControl(v, r);
    LegalState(before);
    if Legal(before) {
      AfterPlan(before, command, store.room);
    }
    var state := Replay(store.events);
    if state.None? || r !in state.value.work.actions {
      return Disagreed;
    }
    var a := state.value.work.actions[r];
    if a.transition.None? || a.resulting.None? {
      return Refused;
    }
    var e := ActionResult(a.control, r, a.worker, a.conversation, a.goal, a.order, a.started, a.transition.value,
                          a.resulting.value);
    var ok := store.Append(Doing(e));
    if !ok {
      return StorageFailed;
    }
    if Legal(before) {
      FirstAppend(before, command);
      Recorded(store.events, |before|);
    }
    var replayed := Replay(store.events);
    if replayed.None? || r !in replayed.value.work.actions || replayed.value.work.actions[r].result.None?
       || replayed.value.work.actions[r].transition != a.transition
       || replayed.value.work.actions[r].resulting != a.resulting {
      return Disagreed;
    }
    return Done;
  }

  /** Phase two, unless it is durable already, then phase three. */
  method FinishAction(store: EventStore, v: int, r: int, id: int, w: int, goal: int, order: ControlKind)
    returns (verdict: Verdict)
    requires ActionOf(order).Some?
    requires Legal(store.events) ==> OpenAction(Folded(store.events), v, r, id, w, goal, order)
    modifies store
    ensures Performs(old(store.events), ApplyControl(v, r), old(store.room), store.events, verdict)
    ensures old(store.events) <= store.events
  {
    hide Legal, Folded, Inv, Replay, After, Apply;
    ghost var before, command, room := store.events, ApplyControl(v, r), store.room;
    LegalState(before);
    if Legal(before) {
      AfterPlan(before, command, store.room);
    }
    var state := Replay(store.events);
    if state.None? || r !in state.value.work.actions {
      return Disagreed;
    }
    var s, a := state.value, state.value.work.actions[r];
    if a.transition.Some? {
      verdict := AppendActionResult(store, v, r, id, w, goal, order);
      return;
    }
    if w !in s.staff.lives || s.staff.lives[w].last > a.started {
      return Refused;
    }
    var life := s.staff.lives[w].lifecycle;
    if Admission(life, goal, order) != Some(a.phase) {
      return Refused;
    }
    var moved := Act(life, goal, ActionOf(order).value);
    if moved.None? {
      AdmissionEnablesAction(life, goal, order);
      return Refused;
    }
    var ok := store.Append(Staff(Transition(w, goal, ActionOf(order).value, Some(Cause(id, r, a.started)))));
    if !ok {
      return StorageFailed;
    }
    ghost var next := store.events;
    if Legal(before) {
      FirstAppend(before, command);
      TransitionDurable(before, v, r, id, w, goal, order);
      assert store.events == before + [Plan(Folded(before), command).value[0]];
    } else {
      ShorterLegal(before, store.events);
    }
    var replayed := Replay(store.events);
    if replayed.None? || r !in replayed.value.work.actions
       || replayed.value.work.actions[r].resulting != Some(moved.value.phase) {
      return Disagreed;
    }
    verdict := AppendActionResult(store, v, r, id, w, goal, order);
    if Legal(before) {
      PhaseComposes(before, command, room, store.events, verdict);
    }
  }

  /** After the second phase the action is still open and records the phase the lifecycle reached. */
  lemma TransitionDurable(j: Journal, v: int, r: int, id: int, w: int, goal: int, order: ControlKind)
    requires Legal(j) && OpenAction(Folded(j), v, r, id, w, goal, order) && Folded(j).work.actions[r].transition.None?
    requires PlanApplyControl(Folded(j), v, r).Some?
    ensures
      var s, plan := Folded(j), PlanApplyControl(Folded(j), v, r).value;
      && |plan| == 2 && w in s.staff.lives && Act(s.staff.lives[w].lifecycle, goal, ActionOf(order).value).Some?
      && var next := Apply(s, plan[0]);
      && OpenAction(next, v, r, id, w, goal, order) && next.work.actions[r].transition.Some?
      && next.work.actions[r].resulting == Some(Act(s.staff.lives[w].lifecycle, goal, ActionOf(order).value).value.phase)
  {
    hide Legal, Folded;
    AdmissionEnablesAction(Folded(j).staff.lives[w].lifecycle, goal, order);
  }

  method AppendControlAction(store: EventStore, v: int, r: int) returns (verdict: Verdict)
    modifies store
    ensures Performs(old(store.events), ApplyControl(v, r), old(store.room), store.events, verdict)
    ensures old(store.events) <= store.events
  {
    hide Legal, Folded, Inv, Replay, After, Apply;
    ghost var before, command, room := store.events, ApplyControl(v, r), store.room;
    LegalState(before);
    if Legal(before) {
      AfterPlan(before, command, store.room);
    }
    var state := Replay(store.events);
    if state.None? {
      return Refused;
    }
    var s := state.value;
    if !InInbox(s, v, r) || r !in s.car.acks {
      return Refused;
    }
    var item := s.car.deliveries[r];
    var goal, order, w := s.auth.controls[item.control].goal, s.auth.controls[item.control].order, item.worker;
    if ActionOf(order).None? || v !in s.staff.bindings || s.staff.bindings[v] != w {
      return Refused;
    }
    if r in s.work.actions {
      if !SameProvenance(s, v, r) || s.work.actions[r].result.Some? {
        return Refused;
      }
      verdict := FinishAction(store, v, r, item.control, w, goal, order);
      return;
    }
    if w !in s.staff.lives {
      return Refused;
    }
    var phase := Admission(s.staff.lives[w].lifecycle, goal, order);
    if phase.None? {
      return Refused;
    }
    var ok := store.Append(Doing(ActionStarted(item.control, r, w, v, goal, order, s.car.acks[r].at, phase.value)));
    if !ok {
      return StorageFailed;
    }
    if Legal(before) {
      FirstAppend(before, command);
      StartDurable(before, v, r, item.control, w, goal, order);
      assert store.events == before + [Plan(Folded(before), command).value[0]];
    } else {
      ShorterLegal(before, store.events);
    }
    verdict := FinishAction(store, v, r, item.control, w, goal, order);
    if Legal(before) {
      PhaseComposes(before, command, room, store.events, verdict);
    }
  }

  /** After the first phase the action is open. */
  lemma StartDurable(j: Journal, v: int, r: int, id: int, w: int, goal: int, order: ControlKind)
    requires Legal(j) && PlanApplyControl(Folded(j), v, r).Some? && r !in Folded(j).work.actions
    requires
      var s := Folded(j);
      && r in s.car.deliveries && s.car.deliveries[r].control == id && s.car.deliveries[r].worker == w
      && id in s.auth.controls && s.auth.controls[id].goal == goal && s.auth.controls[id].order == order
    ensures
      var plan := PlanApplyControl(Folded(j), v, r).value;
      |plan| == 3 && OpenAction(Apply(Folded(j), plan[0]), v, r, id, w, goal, order)
  {
    hide Legal, Folded;
  }

  // ---- append_controller_worker_control_proposal_checked

  /** Chooses the control to admit. A Continue reuses the one open permit, or else issues the next one
      from the one live lease; that issue is durable even if the proposal stops right after it. */
  method AuthorizeControl(store: EventStore, s: State, w: int, goal: int, life: Lifecycle, ask: ControlAction)
    returns (v: Verdict, order: ControlKind, permit: Option<PermitRef>)
    modifies store
    ensures
      match PlanAdmission(s, w, goal, life, ask)
      case None => v.Refused? && store.events == old(store.events)
      case Some(a) =>
        |a.issue| <= 1 &&
        if |a.issue| > old(store.room) then v.StorageFailed? && store.events == old(store.events)
        else && v.Done? && store.events == old(store.events) + a.issue && store.room == old(store.room) - |a.issue|
             && order == a.order && permit == a.permit
    ensures v.Done? ==>
      match ask
      case AskStart => order.Start? && permit.None?
      case AskStop => order.Halt? && permit.None?
      case AskStatus => order.Status? && permit.None?
      case AskContinue => permit.Some? && order == Continue(permit.value.ordinal)
  {
    order, permit := Status, None;
    match ask {
      case AskStart =>
        order := Start;
        v := if Admission(life, goal, order).Some? then Done else Refused;
      case AskStop =>
        order := Halt;
        v := if Admission(life, goal, order).Some? then Done else Refused;
      case AskStatus =>
        v := if Admission(life, goal, order).Some? then Done else Refused;
      case AskContinue =>
        var open, live := OpenPermits(s, w, goal), LiveLeases(s, w, goal);
        if |open| == 1 {
          var only := TheOnly(open);
          order, permit := Continue(only.ordinal), Some(only);
          v := if life.phase.Working? && only.ordinal <= s.auth.leases[only.lease].allowance then Done else Refused;
        } else if |open| == 0 && |live| == 1 {
          var l := TheOnly(live);
          if !MayIssue(s.auth.leases[l], life) {
            return Refused, order, permit;
          }
          var ordinal := s.auth.leases[l].Issued() + 1;
          var ok := store.Append(Grant(PermitIssued(l, w, goal, ordinal)));
          v, order, permit := if ok then Done else StorageFailed, Continue(ordinal), Some(PermitRef(l, ordinal));
        } else {
          v := Refused;
        }
    }
  }

  method AppendFour(store: EventStore, e1: Event, e2: Event, e3: Event, e4: Event) returns (v: Verdict)
    modifies store
    ensures store.events == old(store.events) + [e1, e2, e3, e4][..Min(old(store.room), 4)]
    ensures v == if old(store.room) >= 4 then Done else StorageFailed
  {
    v := StorageFailed;
    var ok := store.Append(e1);
    if !ok { return; }
    ok := store.Append(e2);
    if !ok { return; }
    ok := store.Append(e3);
    if !ok { return; }
    ok := store.Append(e4);
    if ok { v := Done; }
  }

  /** What the replay after a proposal finds. */
  lemma ProposalDurable(j: Journal, c: Command, longer: Journal)
    requires Legal(j) && c.ProposeControl? && Plan(Folded(j), c).Some? && longer == j + Plan(Folded(j), c).value
    ensures
      && Replay(longer).Some? && c.control in Replay(longer).value.car.routeOf
      && Replay(longer).value.car.routeOf[c.control].route == c.route
      && SeatOf(Folded(j).top, c.controller).Some? && c.control in Replay(longer).value.car.issuers
      && Replay(longer).value.car.issuers[c.control].id == SeatOf(Folded(j).top, c.controller).value.session
  {
    hide Legal, Folded, Replay, Apply, Inv, PlanAdmission;
    var plan := Plan(Folded(j), c).value;
    PrefixReplays(j, c, |plan| - 1);
    assert plan[..|plan| - 1 + 1] == plan;
    Recorded(longer, |longer| - 1);
    Recorded(longer, |longer| - 3);
  }

  lemma TailAppended(j: Journal, issue: seq<Event>, rest: seq<Event>, k: nat)
    ensures j + issue + rest[..Min(k, |rest|)] == j + (issue + rest)[..Min(|issue| + k, |issue + rest|)]
  {
  }

  /** What a proposal needs before it chooses its control. */
  predicate Proposable(s: State, cv: int, wv: int, id: int, r: int) {
    && Commands(s, cv, wv) && EntryOf(s.top, cv).Some? && EntryOf(s.top, wv).Some?
    && s.staff.bindings[wv] in s.staff.lives && id !in s.auth.controls && r !in s.routes
    && s.staff.lives[s.staff.bindings[wv]].lifecycle.goal.Some?
  }

  lemma ProposalShape(s: State, cv: int, wv: int, id: int, r: int, ask: ControlAction)
    ensures !Proposable(s, cv, wv, id, r) ==> Plan(s, ProposeControl(cv, wv, id, r, ask)).None?
    ensures Proposable(s, cv, wv, id, r) ==>
      var w := s.staff.bindings[wv];
      var life := s.staff.lives[w].lifecycle;
      var admitted := PlanAdmission(s, w, life.goal.value, life, ask);
      Plan(s, ProposeControl(cv, wv, id, r, ask))
      == if admitted.None? then None
         else Some(admitted.value.issue
                   + [Grant(ControlAdmitted(id, w, life.goal.value, admitted.value.order, admitted.value.permit)),
                      Carry(IssuerBound(id, SeatOf(s.top, cv).value.session)),
                      Routing(RouteProposed(RouteRequest(r, EntryOf(s.top, cv).value.endpoint,
                                                         EntryOf(s.top, wv).value.endpoint, OrchestrationControl), RequireApproval)),
                      Carry(ControlRouteBound(id, r))])
  {
    hide SupervisesWorker, EntryOf, PlanAdmission;
  }

  method AppendControlProposal(store: EventStore, cv: int, wv: int, id: int, r: int, ask: ControlAction)
    returns (v: Verdict)
    modifies store
    ensures Performs(old(store.events), ProposeControl(cv, wv, id, r, ask), old(store.room), store.events, v)
    ensures old(store.events) <= store.events
  {
    hide Legal, Folded, Inv, Replay, After, Apply, Plan, PlanProposeControl, PlanAdmission, EntryOf, SeatOf, SupervisesWorker;
    ghost var before, command, room := store.events, ProposeControl(cv, wv, id, r, ask), store.room;
    LegalState(before);
    if Legal(before) {
      AfterPlan(before, command, store.room);
    }
    var state := Replay(store.events);
    if state.None? {
      return Refused;
    }
    var s := state.value;
    ProposalShape(s, cv, wv, id, r, ask);
    if !Commands(s, cv, wv) {
      return Refused;
    }
    var from, to := EntryOf(s.top, cv), EntryOf(s.top, wv);
    var w := s.staff.bindings[wv];
    if from.None? || to.None? || w !in s.staff.lives || id in s.auth.controls || r in s.routes {
      return Refused;
    }
    var life := s.staff.lives[w].lifecycle;
    if life.goal.None? {
      return Refused;
    }
    var order, permit;
    v, order, permit := AuthorizeControl(store, s, w, life.goal.value, life, ask);
    if !v.Done? {
      return;
    }
    var controller := SeatOf(s.top, cv).value.session;
    ghost var issue := PlanAdmission(s, w, life.goal.value, life, ask).value.issue;
    var e1 := Grant(ControlAdmitted(id, w, life.goal.value, order, permit));
    var e2 := Carry(IssuerBound(id, controller));
    var e3 := Routing(RouteProposed(RouteRequest(r, from.value.endpoint, to.value.endpoint, OrchestrationControl), RequireApproval));
    var e4 := Carry(ControlRouteBound(id, r));
    ghost var rest := [e1, e2, e3, e4];
    ghost var k := store.room;
    v := AppendFour(store, e1, e2, e3, e4);
    if Legal(before) {
      assert Plan(s, command) == Some(issue + rest);
      TailAppended(before, issue, rest, k);
    }
    if !v.Done? {
      return;
    }
    if Legal(before) {
      ProposalDurable(before, command, store.events);
    }
    var replayed := Replay(store.events);
    if replayed.None? || id !in replayed.value.car.routeOf || replayed.value.car.routeOf[id].route != r
       || id !in replayed.value.car.issuers || replayed.value.car.issuers[id].id != controller {
      return Disagreed;
    }
  }
}
