/** Shared vocabulary of the journal: identities, enumerations and the typed events.

    Identities are opaque u64 values in the repository; here they are integers.
    JSON encoding, scopes and timestamps are not modelled: an event is its decoded payload. */
module Common {
  datatype Option<+T> = None | Some(value: T)

  /** A fact together with the durable sequence number of the event that recorded it. */
  datatype Stamped = Stamped(id: int, at: int)

  function Min(a: nat, b: nat): nat {
    if a <= b then a else b
  }

  /** The Unicode White_Space property. */
  predicate IsWhiteSpace(c: char) {
    || '\U{9}' <= c <= '\U{d}' || '\U{2000}' <= c <= '\U{200a}'
    || c in {'\U{20}', '\U{85}', '\U{a0}', '\U{1680}', '\U{2028}', '\U{2029}', '\U{202f}', '\U{205f}', '\U{3000}'}
  }

  /** `text.trim().is_empty()` */
  predicate Blank(text: string) {
    forall i | 0 <= i < |text| :: IsWhiteSpace(text[i])
  }

  /** `text.len()`: the length of the UTF-8 encoding. */
  function ByteLength(text: string): nat {
    if text == "" then 0
    else
      var n := text[|text| - 1] as int;
      ByteLength(text[..|text| - 1]) + if n < 0x80 then 1 else if n < 0x800 then 2 else if n < 0x10000 then 3 else 4
  }
}

module Events {
  import opened Common

  // Routing (crates/core/src/routing.rs)
  datatype RouteClass = SessionMessage | OrchestrationControl | ToolCall
  datatype RoutePolicy = AllowByPolicy | DenyByPolicy | RequireApproval
  datatype Authority = Policy | User
  datatype RouteDecision = Allow | Deny
  datatype RouteRequest = RouteRequest(id: int, source: int, destination: int, category: RouteClass)

  // Chat containers (crates/core/src/chat_container.rs)
  datatype SessionPhase = Healthy | Aging | Saturated | Retired {
    predicate AcceptsOrdinaryTurns() { Healthy? || Aging? }
    predicate CanTransitionTo(next: SessionPhase) {
      (Healthy? && (next.Aging? || next.Saturated?)) || (Aging? && next.Saturated?)
    }
  }

  // Workers (crates/core/src/orchestration.rs, crates/core/src/control.rs)
  datatype WorkerPhase = Unassigned | Ready | Working | NeedsInput | Blocked | Completed | Failed | Stopped {
    predicate Terminal() { Completed? || Failed? || Stopped? }
  }
  datatype WorkerAction =
    StartOrResume | ReportProgress | RequestInput | MarkBlocked | Complete | Fail | Stop
  datatype ControlKind = Start | Continue(ordinal: int) | Halt | Status
  datatype PermitRef = PermitRef(lease: int, ordinal: int)
  datatype Cause = Cause(control: int, route: int, started: int)

  datatype OutcomeKind = Result | Error
  datatype MemoryDecision = Admit | Exclude

// Typed events, one datatype per audit group of crates/store/src

  /** session_audit.rs, chat_container_audit.rs, local_conversation_chat_container_audit.rs */
  datatype TopEvent =
    | SessionRegistered(session: int)
    | ContainerCreated(container: int, root: int)
    | ConversationBound(conversation: int, container: int)
    | PhaseChanged(container: int, session: int, before: SessionPhase, after: SessionPhase)
    | SuccessorJoined(container: int, predecessor: int, successor: int, handoff: int)
    | SessionEndpointBound(session: int, endpoint: int)
    | WorkerSessionBound(worker: int, session: int)
    | WorkerSessionMoved(worker: int, predecessor: int, successor: int)

  /** tool_provider_audit.rs */
  datatype ProviderEvent =
    | ProviderRegistered(provider: int, name: string)
    | ProviderEndpointBound(provider: int, endpoint: int)

  /** routing_audit.rs */
  datatype RouteEvent =
    | RouteProposed(request: RouteRequest, policy: RoutePolicy)
    | RouteDecided(route: int, decision: RouteDecision)
    | RouteDispatched(route: int, grant: Authority)

  /** local_route_payload_audit.rs, local_route_delivery_audit.rs */
  datatype MailEvent =
    | PayloadAttached(payload: int, route: int, sender: int, receiver: int, text: string)
    | RouteDelivered(route: int, payload: int, sender: int, receiver: int, senderSession: int,
        receiverSession: int, dispatch: int)

  /** tool_call_audit.rs, tool_outcome_audit.rs, tool_result_context_audit.rs */
  datatype ToolEvent =
    | ToolCallRecorded(call: int, session: int, provider: int, operation: string, arguments: string)
    | ToolCallRouteBound(call: int, route: int)
    | ToolOutcome(call: int, route: int, kind: OutcomeKind, text: string)
    | ResultDecided(call: int, route: int, observed: int, conversation: int, verdict: MemoryDecision)

  /** local_memory_audit.rs, local_memory_context_audit.rs, local_memory_supersession_audit.rs */
  datatype MemoryEvent =
    | MemoryRecorded(memory: int, conversation: int, text: string)
    | MemoryDecided(memory: int, conversation: int, verdict: MemoryDecision)
    | MemorySuperseded(older: int, newer: int)

  /** worker_audit.rs, local_conversation_worker_audit.rs */
  datatype StaffEvent =
    | WorkerBound(conversation: int, worker: int)
    | GoalAssigned(worker: int, goal: int)
    | Transition(worker: int, goal: int, action: WorkerAction, cause: Option<Cause>)

  /** supervision_audit.rs */
  datatype SupervisionEvent =
    | ControllerDesignated(session: int)
    | ControllerWorkerBound(controller: int, session: int)

  /** control_audit.rs, continuation_audit.rs */
  datatype MandateEvent =
    | LeaseCreated(lease: int, worker: int, goal: int, allowance: int)
    | PermitIssued(lease: int, worker: int, goal: int, ordinal: int)
    | ControlAdmitted(control: int, worker: int, goal: int, order: ControlKind, permit: Option<PermitRef>)

  /** control_provenance_audit.rs, control_route_audit.rs, control_delivery_audit.rs, control_ack_audit.rs */
  datatype CarriageEvent =
    | IssuerBound(control: int, session: int)
    | ControlRouteBound(control: int, route: int)
    | ControlDelivered(control: int, route: int, worker: int, conversation: int, session: int,
        controller: int, dispatch: int)
    | ControlAcked(control: int, route: int, worker: int, conversation: int, delivered: int)

  /** control_action_audit.rs, continuation_execution_audit.rs */
  datatype WorkEvent =
    | ActionStarted(control: int, route: int, worker: int, conversation: int, goal: int,
        order: ControlKind, acked: int, phase: WorkerPhase)
    | ActionResult(control: int, route: int, worker: int, conversation: int, goal: int,
        order: ControlKind, started: int, transition: int, phase: WorkerPhase)
    | ExecutionStarted(control: int, route: int, worker: int, conversation: int, goal: int, lease: int,
        ordinal: int, acked: int, turn: int)

  datatype Event =
    | Top(top: TopEvent)
    | Prov(prov: ProviderEvent)
    | Routing(routing: RouteEvent)
    | Post(post: MailEvent)
    | Tool(tool: ToolEvent)
    | Recall(recall: MemoryEvent)
    | Staff(staff: StaffEvent)
    | Oversight(oversight: SupervisionEvent)
    | Grant(grant: MandateEvent)
    | Carry(carry: CarriageEvent)
    | Doing(doing: WorkEvent)

  /** The journal. Event `j[i]` carries sequence number `i + 1` (crates/store/src/lib.rs). */
  type Journal = seq<Event>
}
