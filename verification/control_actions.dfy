/** The three-phase control action: what its events say, and why a retry always completes it. */
module ControlActions {
  import opened Common
  import opened Events
  import opened Core
  import opened Replaying
  import opened Writer
  import opened Invariant
  import opened Safety
  import opened Log
  import opened Index
  import opened Runs

  /** A lifecycle event of the worker. */
  predicate Moves(e: Event, w: int) {
    e.Staff? && !e.staff.WorkerBound? && e.staff.worker == w
  }

  lemma {:induction false} MovesAreRecorded(j: Journal, i: int, w: int)
    requires Legal(j) && 0 <= i < |j| && Moves(j[i], w)
    ensures w in Folded(j).staff.lives && i + 1 <= Folded(j).staff.lives[w].last
  {
    hide Folded, Legal;
    Recorded(j, i);
  }

  /** When a control's transition is appended, the worker has not moved since the start event and
      is still in the phase recorded there; the transition leaves it in the resulting phase. */
  lemma TransitionFollowsStart(j: Journal, k: int)
    requires Legal(j) && 0 <= k < |j| && j[k].Staff? && j[k].staff.Transition? && j[k].staff.cause.Some?
    ensures
      var s, e := Folded(j[..k]), j[k].staff;
      && e.cause.value.route in s.work.actions && e.worker in s.staff.lives
      && var a := s.work.actions[e.cause.value.route];
      && a.started == e.cause.value.started && a.worker == e.worker && a.transition.None?
      && s.staff.lives[e.worker].lifecycle == Lifecycle(Some(e.goal), a.phase)
      && ActionOf(a.order) == Some(e.action)
      && Act(s.staff.lives[e.worker].lifecycle, e.goal, e.action)
         == Some(Lifecycle(Some(e.goal), ResultingPhase(a.order).value))
      && forall i | 0 <= i < k && a.started <= i :: !Moves(j[i], e.worker)
  {
    hide Folded, Legal, ApplyWorkers, Inv, Moves;
    var s, e := Folded(j[..k]), j[k].staff;
    AdmittedAt(j, k);
    LegalPrefix(j, k);
    assert AcceptsWorkers(s, e) && LawfulWorkers(s, e);
    var a := s.work.actions[e.cause.value.route];
    AdmissionEnablesAction(s.staff.lives[e.worker].lifecycle, e.goal, a.order);
    forall i | 0 <= i < k && a.started <= i ensures !Moves(j[i], e.worker) {
      if Moves(j[i], e.worker) {
        MovesAreRecorded(j[..k], i, e.worker);
      }
    }
  }

  /** In every run an action's start, transition and result are durable in this order, each phase
      only after the previous one; `HappensOnce` adds that there is at most one of each. */
  lemma ActionInOrder(steps: seq<Step>, r: int)
    requires r in Folded(Run(steps)).work.actions
    ensures
      var j := Run(steps);
      var a := Folded(j).work.actions[r];
      && Holds(j, a.started, Doing(ActionStarted(a.control, r, a.worker, a.conversation, a.goal, a.order, a.acked, a.phase)))
      && (a.transition.Some? ==>
            && a.started < a.transition.value && ActionOf(a.order).Some? && a.resulting == ResultingPhase(a.order)
            && Holds(j, a.transition.value,
                     Staff(Transition(a.worker, a.goal, ActionOf(a.order).value, Some(Cause(a.control, r, a.started)))))
            && (forall i | a.started <= i < a.transition.value - 1 :: !Moves(j[i], a.worker)))
      && (a.result.Some? ==>
            && a.transition.Some? && a.transition.value < a.result.value
            && Holds(j, a.result.value,
                     Doing(ActionResult(a.control, r, a.worker, a.conversation, a.goal, a.order, a.started,
                                        a.transition.value, a.resulting.value))))
  {
    hide Folded, Legal, Run, Moves, BackedTop, BackedProviders, BackedRoutes, BackedMail, BackedTools, BackedMemory, BackedMandate,
      BackedCarriage;
    hide TopInv, ProviderInv, GatesInv, EndsInv, MailInv, ToolInv, MemoryInv, StaffInv, SupervisionInv, LeaseInv,
      SingleAuthority, CarriageInv;
    var j := Run(steps);
    RunIndexed(steps);
    var a := Folded(j).work.actions[r];
    assert ActionInv(a, r, Folded(j).car, Folded(j).auth.controls, |j|);
    if a.transition.Some? {
      TransitionFollowsStart(j, a.transition.value - 1);
    }
  }

  // ---- Retrying after other commands ran in between

  /** What is left of a started action when the journal has `count` events. */
  function Remaining(a: Action, r: int, count: int): seq<Event>
    requires ActionOf(a.order).Some?
  {
    if a.transition.None? then
      [Staff(Transition(a.worker, a.goal, ActionOf(a.order).value, Some(Cause(a.control, r, a.started)))),
       Doing(ActionResult(a.control, r, a.worker, a.conversation, a.goal, a.order, a.started, count + 1,
                          ResultingPhase(a.order).value))]
    else if a.result.None? && a.resulting.Some? then
      [Doing(ActionResult(a.control, r, a.worker, a.conversation, a.goal, a.order, a.started, a.transition.value,
                          a.resulting.value))]
    else []
  }

  /** Nothing outside the action itself touches the worker's lifecycle or the action record. */
  predicate Interferes(e: Event, w: int, r: int) {
    Moves(e, w) || (e.Doing? && e.doing.ActionResult? && e.doing.route == r)
  }

  /** The action of route `r` is open and the worker stands where its start event recorded it. */
  predicate Retriable(s: State, v: int, r: int) {
    && Actionable(s, v, r) && r in s.work.actions && SameProvenance(s, v, r)
    && var a := s.work.actions[r];
    && ActionOf(a.order).Some? && a.result.None?
    && (if a.transition.None? then
          && a.worker in s.staff.lives && s.staff.lives[a.worker].last <= a.started
          && Admission(s.staff.lives[a.worker].lifecycle, a.goal, a.order) == Some(a.phase)
        else a.resulting.Some?)
  }

  /** A retry is accepted exactly when the action is retriable, and appends exactly what remains. */
  lemma RetryPlansRemaining(s: State, v: int, r: int)
    ensures r in s.work.actions ==> (PlanApplyControl(s, v, r).Some? <==> Retriable(s, v, r))
    ensures Retriable(s, v, r) ==>
      && r in s.work.actions && ActionOf(s.work.actions[r].order).Some?
      && PlanApplyControl(s, v, r) == Some(Remaining(s.work.actions[r], r, s.count))
  {
  }

  lemma StaffStaysRetriable(s: State, v: int, r: int, e: Event)
    requires StaffInv(s.staff, s.count) && e.Staff? && AcceptsWorkers(s, e.staff)
    requires Retriable(s, v, r) && !Moves(e, s.work.actions[r].worker)
    ensures Retriable(Apply(s, e), v, r) && Apply(s, e).work.actions[r] == s.work.actions[r]
  {
  }

  lemma CarriageStaysRetriable(s: State, v: int, r: int, e: Event)
    requires e.Carry? && AcceptsCarriage(s, e.carry) && Retriable(s, v, r)
    ensures Retriable(Apply(s, e), v, r) && Apply(s, e).work.actions[r] == s.work.actions[r]
  {
  }

  lemma MandateStaysRetriable(s: State, v: int, r: int, e: Event)
    requires e.Grant? && AcceptsMandate(s, e.grant) && Retriable(s, v, r)
    ensures Retriable(Apply(s, e), v, r) && Apply(s, e).work.actions[r] == s.work.actions[r]
  {
  }

  lemma WorkStaysRetriable(s: State, v: int, r: int, e: Event)
    requires e.Doing? && AcceptsWork(s, e.doing) && Retriable(s, v, r) && !(e.doing.ActionResult? && e.doing.route == r)
    ensures Retriable(Apply(s, e), v, r) && Apply(s, e).work.actions[r] == s.work.actions[r]
  {
  }

  lemma OthersStayRetriable(s: State, v: int, r: int, e: Event)
    requires !e.Staff? && !e.Carry? && !e.Grant? && !e.Doing? && Retriable(s, v, r)
    ensures Retriable(Apply(s, e), v, r) && Apply(s, e).work.actions[r] == s.work.actions[r]
  {
    hide ApplyTop, ApplyProviders, ApplyRoutes, ApplyMail, ApplyTools, ApplyMemory, ApplySupervision;
  }

  lemma StaysRetriable(s: State, v: int, r: int, e: Event)
    requires Inv(s) && Admits(s, e) && Retriable(s, v, r) && r in s.work.actions
    requires !Interferes(e, s.work.actions[r].worker, r)
    ensures Retriable(Apply(s, e), v, r) && Apply(s, e).work.actions[r] == s.work.actions[r]
  {
    hide TopInv, ProviderInv, GatesInv, EndsInv, MailInv, ToolInv, MemoryInv, StaffInv, SupervisionInv, LeaseInv,
      SingleAuthority, CarriageInv, WorkInv;
    hide Retriable, Apply, Lawful, AcceptsTopology, AcceptsProviders, AcceptsRoutes, AcceptsMail, AcceptsTools, AcceptsMemory,
      AcceptsWorkers, AcceptsSupervision, AcceptsMandate, AcceptsCarriage, AcceptsWork;
    match e
    case Grant(_) => MandateStaysRetriable(s, v, r, e);
    case Carry(_) => CarriageStaysRetriable(s, v, r, e);
    case Staff(_) => StaffStaysRetriable(s, v, r, e);
    case Doing(_) => WorkStaysRetriable(s, v, r, e);
    case _ => OthersStayRetriable(s, v, r, e);
  }

  /** A crash right after the start or the transition leaves a retriable action. */
  lemma InterruptedIsRetriable(s: State, v: int, r: int)
    requires Inv(s) && PlanApplyControl(s, v, r).Some? && |PlanApplyControl(s, v, r).value| > 1
    ensures Retriable(Apply(s, PlanApplyControl(s, v, r).value[0]), v, r)
  {
    hide Inv, Retriable;
    var next := Apply(s, PlanApplyControl(s, v, r).value[0]);
    ApplyControlResumes(s, v, r);
    RetryPlansRemaining(next, v, r);
    assert r in next.work.actions;
  }

  /** Once the start event is durable, a retry succeeds after any other events that leave the
      worker's lifecycle alone, and appends exactly what the uninterrupted action still owed. */
  lemma {:induction false} RetrySurvivesOthers(j: Journal, others: Journal, v: int, r: int)
    requires Legal(j + others) && Retriable(Folded(j), v, r) && r in Folded(j).work.actions
    requires forall i | 0 <= i < |others| :: !Interferes(others[i], Folded(j).work.actions[r].worker, r)
    ensures Retriable(Folded(j + others), v, r) && r in Folded(j + others).work.actions
    ensures Folded(j + others).work.actions[r] == Folded(j).work.actions[r]
    ensures ActionOf(Folded(j).work.actions[r].order).Some?
    ensures PlanApplyControl(Folded(j + others), v, r) == Some(Remaining(Folded(j).work.actions[r], r, |j + others|))
    decreases |others|
  {
    hide Folded, Legal, Retriable, PlanApplyControl, Inv, Interferes, Apply, Admits, Remaining;
    var all := j + others;
    LegalReplays(all);
    if others == [] {
      assert all == j;
    } else {
      var n := |others| - 1;
      var before := j + others[..n];
      assert before == all[..|all| - 1];
      LegalPrefix(all, |all| - 1);
      RetrySurvivesOthers(j, others[..n], v, r);
      LegalReplays(before);
      AdmittedAt(all, |all| - 1);
      StaysRetriable(Folded(before), v, r, others[n]);
      LastFold(all);
    }
    RetryPlansRemaining(Folded(all), v, r);
  }

  lemma LastFold(j: Journal)
    requires j != []
    ensures Folded(j) == Apply(Folded(j[..|j| - 1]), j[|j| - 1])
  {
  }
}
