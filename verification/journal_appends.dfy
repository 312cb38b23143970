/** More checked appends of apps/desktop/src/journal_ops.rs: the guards in the source's order, the events,
    and the comparison of the replayed record with what was appended. */
module JournalAppends {
  import opened Common
  import opened Events
  import opened Core
  import opened Replaying
  import opened Writer
  import opened Invariant
  import opened Safety
  import opened Log
  import opened Runs
  import opened Uninterrupted
  import opened JournalOps

  /** Appends the events one at a time and replays the journal. */
  method AppendChecked(store: EventStore, events: seq<Event>, ghost c: Command) returns (v: Verdict, after: State)
    requires Legal(store.events) ==> Plan(Folded(store.events), c) == Some(events) && events != []
    modifies store
    ensures Performs(old(store.events), c, old(store.room), store.events, v)
    ensures old(store.events) <= store.events
    ensures v.Done? ==> store.events == old(store.events) + events
    ensures Legal(old(store.events)) && v.Done? ==>
      && after == ApplyAll(Folded(old(store.events)), events)
      && forall i | 0 <= i < |events| :: Records(after, |old(store.events)| + i + 1, events[i])
  {
    hide Legal, Plan, Folded, Apply, ApplyAll, Inv, Replay, After, Records;
    ghost var before := store.events;
    LegalState(before);
    if Legal(before) {
      AfterPlan(before, c, store.room);
    }
    after := EMPTY;
    var i := 0;
    while i < |events|
      invariant 0 <= i <= |events| && store.events == before + events[..i] && old(store.room) == store.room + i
    {
      var ok := store.Append(events[i]);
      if !ok {
        return StorageFailed, after;
      }
      i := i + 1;
      assert before + events[..i] == (before + events[..i - 1]) + [events[i - 1]];
    }
    assert before + events[..i] == before + events;
    if Legal(before) {
      FoldedAll(before, events);
      PrefixReplays(before, c, |events| - 1);
      forall k | 0 <= k < |events| ensures Records(Folded(store.events), |before| + k + 1, events[k]) {
        Recorded(store.events, |before| + k);
      }
    }
    var replayed := Replay(store.events);
    if replayed.None? {
      return Disagreed, after;
    }
    v, after := Done, replayed.value;
  }

  lemma RefusedWhen(j: Journal, c: Command, room: nat)
    requires Legal(j) ==> Plan(Folded(j), c).None?
    ensures Performs(j, c, room, j, Refused)
  {
    hide Legal, Plan, Folded, Replay, Inv, After;
    if Legal(j) {
      LegalReplays(j);
      AfterPlan(j, c, room);
    }
  }

  /** A disagreement is reported only for a journal that was not legal to begin with. */
  lemma OnlyIllegal(j: Journal, c: Command, room: nat, after: Journal)
    requires !Legal(j)
    ensures Performs(j, c, room, after, Disagreed)
  {
    hide Legal;
  }

  // ---- append_local_orchestration_topology_checked

  method AppendTopology(store: EventStore, conversation: int, container: int, session: int) returns (v: Verdict)
    modifies store
    ensures Performs(old(store.events), BindTopology(conversation, container, session), old(store.room), store.events, v)
    ensures old(store.events) <= store.events
  {
    hide Legal, Folded, Inv, Replay, After, Apply, Performs;
    ghost var c := BindTopology(conversation, container, session);
    LegalState(store.events);
    var state := Replay(store.events);
    if state.None? || conversation in state.value.top.bindings || container in state.value.top.tenant
       || session in state.value.top.sessions || container in state.value.top.containers {
      RefusedWhen(store.events, c, store.room);
      return Refused;
    }
    var after;
    v, after := AppendChecked(store, [Top(SessionRegistered(session)), Top(ContainerCreated(container, session)),
                                      Top(ConversationBound(conversation, container))], c);
  }

  // ---- append_local_route_payload_checked, append_local_route_user_decision_checked

  method AppendPayload(store: EventStore, payload: int, r: int, text: string) returns (v: Verdict)
    modifies store
    ensures Performs(old(store.events), AttachPayload(payload, r, text), old(store.room), store.events, v)
    ensures old(store.events) <= store.events
  {
    hide Legal, Folded, Inv, Replay, After, Apply, Performs, Blank, Resolve;
    ghost var before, c, room := store.events, AttachPayload(payload, r, text), store.room;
    LegalState(store.events);
    var state := Replay(store.events);
    if Blank(text) || state.None? || r in state.value.mail.payloads || payload in state.value.mail.payloadOwner
       || r !in state.value.routes {
      RefusedWhen(store.events, c, store.room);
      return Refused;
    }
    var s := state.value;
    var route := s.routes[r];
    if !route.request.category.SessionMessage? || route.gate.Dispatched? {
      RefusedWhen(store.events, c, store.room);
      return Refused;
    }
    var source, destination := Resolve(s.top, route.request.source), Resolve(s.top, route.request.destination);
    if source.None? || destination.None? || source.value.conversation == destination.value.conversation
       || !source.value.phase.AcceptsOrdinaryTurns() || !destination.value.phase.AcceptsOrdinaryTurns() {
      RefusedWhen(store.events, c, store.room);
      return Refused;
    }
    var a, b := source.value.conversation, destination.value.conversation;
    var event := Post(PayloadAttached(payload, r, a, b, text));
    var after;
    v, after := AppendChecked(store, [event], c);
    assert [event][0] == event;
    if v.Done? && (r !in after.mail.payloads || after.mail.payloads[r].(at := 0) != Payload(payload, a, b, text, 0)) {
      OnlyIllegal(before, c, room, store.events);
      v := Disagreed;
    }
  }

  lemma DecisionApplied(s: State, r: int, d: RouteDecision)
    requires r in s.routes && !s.routes[r].gate.Dispatched?
    ensures
      var t := Apply(s, Routing(RouteDecided(r, d)));
      r in t.routes && t.routes[r].decision == Some(d) && t.routes[r].gate == if d.Allow? then Allowed(User) else Denied(User)
  {
  }

  method AppendMessageDecision(store: EventStore, r: int, decision: RouteDecision) returns (v: Verdict)
    modifies store
    ensures Performs(old(store.events), DecideMessage(r, decision), old(store.room), store.events, v)
    ensures v.Done? ==> store.events == old(store.events) + [Routing(RouteDecided(r, decision))]
    ensures old(store.events) <= store.events
  {
    hide Legal, Folded, Inv, Replay, After, Apply, Performs, Resolve;
    ghost var before, c, room := store.events, DecideMessage(r, decision), store.room;
    LegalState(store.events);
    var state := Replay(store.events);
    if state.None? || r !in state.value.routes {
      RefusedWhen(store.events, c, store.room);
      return Refused;
    }
    var s := state.value;
    var route := s.routes[r];
    if !route.request.category.SessionMessage? || !route.policy.RequireApproval? || route.gate.Dispatched?
       || (decision.Allow? && r !in s.mail.payloads) || route.decision == Some(decision) {
      RefusedWhen(store.events, c, store.room);
      return Refused;
    }
    var source, destination := Resolve(s.top, route.request.source), Resolve(s.top, route.request.destination);
    if source.None? || destination.None? || source.value.conversation == destination.value.conversation
       || !source.value.phase.AcceptsOrdinaryTurns() || !destination.value.phase.AcceptsOrdinaryTurns() {
      RefusedWhen(store.events, c, store.room);
      return Refused;
    }
    var event := Routing(RouteDecided(r, decision));
    var expected := if decision.Allow? then Allowed(User) else Denied(User);
    var after;
    v, after := AppendChecked(store, [event], c);
    if Legal(before) {
      ApplyOne(s, event);
      DecisionApplied(s, r, decision);
    }
    if v.Done? && (r !in after.routes || after.routes[r].decision != Some(decision) || after.routes[r].gate != expected) {
      OnlyIllegal(before, c, room, store.events);
      v := Disagreed;
    }
  }

  // ---- append_tool_call_proposal_checked

  lemma ProposalGate(s: State, e1: Event, request: RouteRequest, policy: RoutePolicy, e3: Event)
    requires e1.Tool? && e3.Tool? && !policy.DenyByPolicy?
    ensures
      var t := Apply(Apply(Apply(s, e1), Routing(RouteProposed(request, policy))), e3);
      request.id in t.routes && t.routes[request.id].gate == if policy.AllowByPolicy? then Allowed(Policy) else Pending
  {
    hide ApplyTools;
  }

  method AppendToolCall(store: EventStore, id: int, r: int, conversation: int, provider: int, operation: string,
                        arguments: string, policy: RoutePolicy, wellFormed: bool) returns (v: Verdict)
    modifies store
    ensures Performs(old(store.events), ProposeCall(id, r, conversation, provider, operation, arguments, policy, wellFormed),
                     old(store.room), store.events, v)
    ensures v.Done? ==> exists session, request: RouteRequest ::
              && request.id == r && request.category.ToolCall?
              && store.events == old(store.events) + [Tool(ToolCallRecorded(id, session, provider, operation, arguments)),
                                                      Routing(RouteProposed(request, policy)), Tool(ToolCallRouteBound(id, r))]
    ensures old(store.events) <= store.events
  {
    hide Legal, Folded, Inv, Replay, After, Apply, Performs, SeatOf, EntryOf;
    ghost var before, room := store.events, store.room;
    ghost var c := ProposeCall(id, r, conversation, provider, operation, arguments, policy, wellFormed);
    LegalState(store.events);
    var state := Replay(store.events);
    if policy.DenyByPolicy? || !wellFormed || state.None? || id in state.value.tools.calls || r in state.value.routes {
      RefusedWhen(store.events, c, store.room);
      return Refused;
    }
    var s := state.value;
    var source := EntryOf(s.top, conversation);
    if source.None? || !source.value.phase.AcceptsOrdinaryTurns() || provider !in s.prov.table
       || s.prov.table[provider].endpoint.None? {
      RefusedWhen(store.events, c, store.room);
      return Refused;
    }
    var request := RouteRequest(r, source.value.endpoint, s.prov.table[provider].endpoint.value.id, ToolCall);
    var e1 := Tool(ToolCallRecorded(id, source.value.session, provider, operation, arguments));
    var e2 := Routing(RouteProposed(request, policy));
    var e3 := Tool(ToolCallRouteBound(id, r));
    var after;
    v, after := AppendChecked(store, [e1, e2, e3], c);
    if v.Done? {
      assert [e1, e2, e3][0] == e1 && [e1, e2, e3][1] == e2 && [e1, e2, e3][2] == e3;
      if Legal(before) {
        ApplyThree(s, e1, e2, e3);
        ProposalGate(s, e1, request, policy, e3);
      }
      if id !in after.tools.calls || after.tools.calls[id].session != source.value.session
         || after.tools.calls[id].provider != provider || after.tools.calls[id].operation != operation
         || after.tools.calls[id].arguments != arguments || after.tools.calls[id].route.None?
         || after.tools.calls[id].route.value.id != r
         || r !in after.routes || after.routes[r].request != request || after.routes[r].policy != policy
         || after.routes[r].gate != (if policy.AllowByPolicy? then Allowed(Policy) else Pending) {
        OnlyIllegal(before, c, room, store.events);
        v := Disagreed;
      }
    }
  }

  // ---- reserve_local_http_mcp_checked, reserve_builtin_host_shell_checked

  /** Reserves one execution for an adapter that acts outside the journal: the dispatch alone. `ready`
      says that the adapter accepts the call and its arguments. */
  method ReserveExecution(store: EventStore, x: Executor, r: int, ready: bool) returns (v: Verdict)
    requires !x.Builtin?
    modifies store
    ensures Performs(old(store.events), Execute(x, r, ready, ""), old(store.room), store.events, v)
    ensures old(store.events) <= store.events
  {
    hide Legal, Folded, Inv, Replay, After, Apply, Performs, Resolve;
    ghost var c := Execute(x, r, ready, "");
    LegalState(store.events);
    var state := Replay(store.events);
    if !ready || state.None? || r !in state.value.tools.routeOwner
       || state.value.tools.routeOwner[r] !in state.value.tools.calls || r !in state.value.routes {
      RefusedWhen(store.events, c, store.room);
      return Refused;
    }
    var s := state.value;
    var id, route := s.tools.routeOwner[r], s.routes[r];
    var call := s.tools.calls[id];
    if call.provider !in s.prov.table || !route.request.category.ToolCall? || !Authorized(route)
       || id in s.tools.outcomes || r in s.tools.outcomeOwner {
      RefusedWhen(store.events, c, store.room);
      return Refused;
    }
    var source, endpoint := Resolve(s.top, route.request.source), s.prov.table[call.provider].endpoint;
    if source.None? || source.value.session != call.session || !source.value.phase.AcceptsOrdinaryTurns()
       || endpoint.None? || endpoint.value.id != route.request.destination || RebuiltGate(route) != Some(route.gate) {
      RefusedWhen(store.events, c, store.room);
      return Refused;
    }
    var event := Routing(RouteDispatched(r, route.gate.grant));
    var after;
    assert [event] + [] == [event];
    v, after := AppendChecked(store, [event], c);
  }

  // ---- append_local_memory_supersession_checked

  method AppendSupersession(store: EventStore, older: int, newer: int) returns (v: Verdict)
    modifies store
    ensures Performs(old(store.events), SupersedeMemory(older, newer), old(store.room), store.events, v)
    ensures old(store.events) <= store.events
  {
    hide Legal, Folded, Inv, Replay, After, Apply, Performs;
    ghost var before, c, room := store.events, SupersedeMemory(older, newer), store.room;
    LegalState(store.events);
    var state := Replay(store.events);
    if older == newer || state.None? || older !in state.value.mem.artifacts || newer !in state.value.mem.artifacts {
      RefusedWhen(store.events, c, store.room);
      return Refused;
    }
    var m := state.value.mem;
    if m.artifacts[older].conversation != m.artifacts[newer].conversation || m.artifacts[newer].at <= m.artifacts[older].at
       || older in m.successor || newer in m.predecessor {
      RefusedWhen(store.events, c, store.room);
      return Refused;
    }
    var event := Recall(MemorySuperseded(older, newer));
    var after;
    v, after := AppendChecked(store, [event], c);
    assert [event][0] == event;
    if v.Done? && (older !in after.mem.successor || after.mem.successor[older].id != newer) {
      OnlyIllegal(before, c, room, store.events);
      v := Disagreed;
    }
  }

  // ---- append_current_session_worker_binding_checked

  method AppendWorkerSession(store: EventStore, conversation: int, w: int) returns (v: Verdict)
    modifies store
    ensures Performs(old(store.events), BindWorkerSession(conversation, w), old(store.room), store.events, v)
    ensures old(store.events) <= store.events
  {
    hide Legal, Folded, Inv, Replay, After, Apply, Performs;
    ghost var before, c, room := store.events, BindWorkerSession(conversation, w), store.room;
    LegalState(store.events);
    var state := Replay(store.events);
    if state.None? || w !in state.value.staff.owner || state.value.staff.owner[w] != conversation {
      RefusedWhen(store.events, c, store.room);
      return Refused;
    }
    var s := state.value;
    var seat := SeatOf(s.top, conversation);
    if seat.None? || seat.value.session !in s.top.sessions || seat.value.session in s.sup.designated {
      RefusedWhen(store.events, c, store.room);
      return Refused;
    }
    var session := seat.value.session;
    var e := WorkerSessionBound(w, session);
    if w in s.top.active {
      if s.top.active[w] == session || s.top.sessions[session].worker.Some?
         || s.top.containers[seat.value.container].members[session].predecessor != Some(s.top.active[w]) {
        RefusedWhen(store.events, c, store.room);
        return Refused;
      }
      e := WorkerSessionMoved(w, s.top.active[w], session);
    } else if s.top.sessions[session].worker.Some? {
      RefusedWhen(store.events, c, store.room);
      return Refused;
    }
    var event := Top(e);
    var after;
    v, after := AppendChecked(store, [event], c);
    assert [event][0] == event;
    if v.Done? && (session !in after.top.sessions || after.top.sessions[session].worker.None?
                   || after.top.sessions[session].worker.value.id != w) {
      OnlyIllegal(before, c, room, store.events);
      v := Disagreed;
    }
  }

  // ---- append_controller_continuation_lease_checked

  method AppendContinuationLease(store: EventStore, cv: int, wv: int, l: int, allowance: int) returns (v: Verdict)
    modifies store
    ensures Performs(old(store.events), GrantLease(cv, wv, l, allowance), old(store.room), store.events, v)
    ensures old(store.events) <= store.events
  {
    hide Legal, Folded, Inv, Replay, After, Apply, Performs, SupervisesWorker, SeatOf, LiveLeases, OpenPermits;
    ghost var before, c, room := store.events, GrantLease(cv, wv, l, allowance), store.room;
    LegalState(store.events);
    var state := Replay(store.events);
    if allowance <= 0 || state.None? || !Commands(state.value, cv, wv) {
      RefusedWhen(store.events, c, store.room);
      return Refused;
    }
    var s := state.value;
    var w := s.staff.bindings[wv];
    if w !in s.staff.lives || l in s.auth.leases {
      RefusedWhen(store.events, c, store.room);
      return Refused;
    }
    var life := s.staff.lives[w].lifecycle;
    if life.goal.None? || life.phase.Terminal() || LiveLeases(s, w, life.goal.value) != {}
       || OpenPermits(s, w, life.goal.value) != {} {
      RefusedWhen(store.events, c, store.room);
      return Refused;
    }
    var goal := life.goal.value;
    var event := Grant(LeaseCreated(l, w, goal, allowance));
    var after;
    v, after := AppendChecked(store, [event], c);
    assert [event][0] == event;
    if v.Done? && (l !in after.auth.leases || after.auth.leases[l].worker != w || after.auth.leases[l].goal != goal
                   || after.auth.leases[l].allowance != allowance) {
      OnlyIllegal(before, c, room, store.events);
      v := Disagreed;
    }
  }

  // ---- append_worker_continuation_execution_start_checked

  method AppendExecutionStart(store: EventStore, conversation: int, r: int, turn: int) returns (v: Verdict)
    modifies store
    ensures Performs(old(store.events), StartExecution(conversation, r, turn), old(store.room), store.events, v)
    ensures old(store.events) <= store.events
  {
    hide Legal, Folded, Inv, Replay, After, Apply, Performs;
    ghost var before, c, room := store.events, StartExecution(conversation, r, turn), store.room;
    LegalState(store.events);
    var state := Replay(store.events);
    if state.None? || !Actionable(state.value, conversation, r) || turn in state.value.work.turns {
      RefusedWhen(store.events, c, store.room);
      return Refused;
    }
    var s := state.value;
    var id, w := s.car.deliveries[r].control, s.car.deliveries[r].worker;
    var control := s.auth.controls[id];
    if !control.order.Continue? || r in s.work.executions || id in s.work.executionOf || control.permit.None?
       || control.permit.value.ordinal != control.order.ordinal || w !in s.staff.lives
       || s.staff.lives[w].lifecycle != Lifecycle(Some(control.goal), Working) {
      RefusedWhen(store.events, c, store.room);
      return Refused;
    }
    var permit := control.permit.value;
    var event := Doing(ExecutionStarted(id, r, w, conversation, control.goal, permit.lease, permit.ordinal,
                                        s.car.acks[r].at, turn));
    var after;
    v, after := AppendChecked(store, [event], c);
    assert [event][0] == event;
    if v.Done? && (r !in after.work.executions || after.work.executions[r].control != id
                   || after.work.executions[r].lease != permit.lease || after.work.executions[r].ordinal != permit.ordinal
                   || after.work.executions[r].turn != turn) {
      OnlyIllegal(before, c, room, store.events);
      v := Disagreed;
    }
  }
}
