/** What happens at most once in every run, and what a retry after a crash adds. */
module Runs {
  import opened Common
  import opened Events
  import opened Core
  import opened Replaying
  import opened Writer
  import opened Invariant
  import opened Safety
  import opened Log
  import opened Index

  /** What holds of the journal of every run, under one name for the theorems below. */
  lemma {:induction false} RunIndexed(steps: seq<Step>)
    ensures Legal(Run(steps)) && Inv(Folded(Run(steps))) && Backed(Run(steps), Folded(Run(steps)))
    ensures Folded(Run(steps)).count == |Run(steps)| && Replay(Run(steps)) == Some(Folded(Run(steps)))
  {
    hide Legal, Inv, Run, Folded, Backed;
    RunLegal(steps);
    LegalReplays(Run(steps));
    StateBacked(Run(steps));
  }

  /** Two occurrences of the same one-shot fact. */
  predicate SameFact(a: Event, b: Event) {
    match (a, b)
    case (Top(SessionEndpointBound(x, p)), Top(SessionEndpointBound(y, q))) => x == y || p == q
    case (Top(WorkerSessionBound(_, x)), Top(WorkerSessionBound(_, y))) => x == y
    case (Top(WorkerSessionMoved(_, _, x)), Top(WorkerSessionMoved(_, _, y))) => x == y
    case (Top(WorkerSessionBound(_, x)), Top(WorkerSessionMoved(_, _, y))) => x == y
    case (Prov(ProviderEndpointBound(x, p)), Prov(ProviderEndpointBound(y, q))) => x == y || p == q
    case (Routing(RouteProposed(x, _)), Routing(RouteProposed(y, _))) => x.id == y.id
    case (Routing(RouteDispatched(x, _)), Routing(RouteDispatched(y, _))) => x == y
    case (Post(PayloadAttached(p, x, _, _, _)), Post(PayloadAttached(q, y, _, _, _))) => x == y || p == q
    case (Post(RouteDelivered(x, _, _, _, _, _, _)), Post(RouteDelivered(y, _, _, _, _, _, _))) => x == y
    case (Tool(ToolCallRecorded(x, _, _, _, _)), Tool(ToolCallRecorded(y, _, _, _, _))) => x == y
    case (Tool(ToolCallRouteBound(x, p)), Tool(ToolCallRouteBound(y, q))) => x == y || p == q
    case (Tool(ToolOutcome(x, p, _, _)), Tool(ToolOutcome(y, q, _, _))) => x == y || p == q
    case (Recall(MemorySuperseded(x, p)), Recall(MemorySuperseded(y, q))) => x == y || p == q
    case (Oversight(ControllerDesignated(x)), Oversight(ControllerDesignated(y))) => x == y
    case (Oversight(ControllerWorkerBound(_, x)), Oversight(ControllerWorkerBound(_, y))) => x == y
    case (Grant(LeaseCreated(x, _, _, _)), Grant(LeaseCreated(y, _, _, _))) => x == y
    case (Grant(PermitIssued(x, _, _, m)), Grant(PermitIssued(y, _, _, n))) => x == y && m == n
    case (Grant(ControlAdmitted(x, _, _, _, p)), Grant(ControlAdmitted(y, _, _, _, q))) => x == y || (p == q && p.Some?)
    case (Carry(ControlDelivered(x, p, _, _, _, _, _)), Carry(ControlDelivered(y, q, _, _, _, _, _))) => x == y || p == q
    case (Doing(ActionStarted(x, p, _, _, _, _, _, _)), Doing(ActionStarted(y, q, _, _, _, _, _, _))) => x == y || p == q
    case (Staff(Transition(_, _, _, x)), Staff(Transition(_, _, _, y))) =>
      x.Some? && y.Some? && (x.value.control == y.value.control || x.value.route == y.value.route)
    case (Doing(ActionResult(x, p, _, _, _, _, _, _, _)), Doing(ActionResult(y, q, _, _, _, _, _, _, _))) => x == y || p == q
    case (Doing(ExecutionStarted(x, p, _, _, _, l, m, _, _)), Doing(ExecutionStarted(y, q, _, _, _, k, n, _, _))) =>
      x == y || p == q || (l == k && m == n)
    case _ => false
  }

  /** The control recorded by an action or execution record determines its route. */
  lemma ActedOnce(j: Journal, r: int)
    requires Legal(j) && Backed(j, Folded(j)) && r in Folded(j).work.actions
    ensures var c := Folded(j).work.actions[r].control; c in Folded(j).work.actionOf && Folded(j).work.actionOf[c] == r
  {
    hide Folded, Legal, BackedTop, BackedProviders, BackedRoutes, BackedMail, BackedTools, BackedMemory, BackedMandate, BackedCarriage;
    Recorded(j, Folded(j).work.actions[r].started - 1);
  }

  /** The action records are indexed by their controls. */
  ghost predicate OneActionEach(work: Work) {
    forall r {:trigger r in work.actions} | r in work.actions ::
      work.actions[r].control in work.actionOf && work.actionOf[work.actions[r].control] == r
  }

  lemma RoutingOnce(s: State, i: int, k: int, a: Event, b: Event)
    requires Records(s, i, a) && Records(s, k, b) && SameFact(a, b)
    requires a.Top? || a.Prov? || a.Routing? || a.Post?
    requires MailInv(s.mail, s.routes, s.count)
    ensures i == k
  {
    if a.Post? && a.post.PayloadAttached? {
      assert a.post.route in s.mail.payloads && b.post.route in s.mail.payloads;
    }
  }

  lemma CallsOnce(s: State, i: int, k: int, a: Event, b: Event)
    requires Records(s, i, a) && Records(s, k, b) && SameFact(a, b)
    requires a.Tool? || a.Recall?
    requires ToolInv(s.tools, s.routes, s.count) && MemoryInv(s.mem, s.count)
    ensures i == k
  {
    if a.Recall? {
      assert a.recall.older in s.mem.successor && b.recall.older in s.mem.successor;
    } else if a.tool.ToolOutcome? {
      assert OutcomeInv(s.tools, a.tool.call, s.routes, s.count) && OutcomeInv(s.tools, b.tool.call, s.routes, s.count);
    } else if a.tool.ToolCallRouteBound? {
      assert CallInv(s.tools, a.tool.call, s.routes, s.count) && CallInv(s.tools, b.tool.call, s.routes, s.count);
    }
  }

  lemma ControlsOnce(s: State, i: int, k: int, a: Event, b: Event)
    requires Records(s, i, a) && Records(s, k, b) && SameFact(a, b)
    requires a.Grant? || a.Carry? || a.Doing? || a.Staff? || a.Oversight?
    requires LeaseInv(s.auth, s.count) && WorkInv(s.work, s.car, s.auth.controls, s.count)
    requires OneActionEach(s.work)
    ensures i == k
  {
    if a.Grant? && a.grant.ControlAdmitted? {
      assert ControlInv(s.auth, a.grant.control, s.count) && ControlInv(s.auth, b.grant.control, s.count);
    } else if a.Doing? && a.doing.ExecutionStarted? {
      var x, y := a.doing.route, b.doing.route;
      assert ExecutionInv(s.work.executions[x], x, s.car, s.auth.controls);
      assert ExecutionInv(s.work.executions[y], y, s.car, s.auth.controls);
      assert ControlInv(s.auth, a.doing.control, s.count) && ControlInv(s.auth, b.doing.control, s.count);
    } else if a.Staff? {
      assert a.staff.cause.value.route in s.work.actions && b.staff.cause.value.route in s.work.actions;
    } else if a.Doing? {
      assert a.doing.route in s.work.actions && b.doing.route in s.work.actions;
    }
  }

  lemma {:induction false} ActionsIndexed(j: Journal)
    requires Legal(j) && Backed(j, Folded(j))
    ensures OneActionEach(Folded(j).work)
  {
    hide Folded, Legal, Backed;
    forall r | r in Folded(j).work.actions
      ensures var c := Folded(j).work.actions[r].control;
        c in Folded(j).work.actionOf && Folded(j).work.actionOf[c] == r
    {
      ActedOnce(j, r);
    }
  }

  lemma InvParts(s: State)
    requires Inv(s)
    ensures MailInv(s.mail, s.routes, s.count) && ToolInv(s.tools, s.routes, s.count) && MemoryInv(s.mem, s.count)
    ensures LeaseInv(s.auth, s.count) && WorkInv(s.work, s.car, s.auth.controls, s.count)
  {
    hide MailInv, ToolInv, MemoryInv, LeaseInv, WorkInv;
  }

  lemma StampsAgree(s: State, i: int, k: int, a: Event, b: Event)
    requires MailInv(s.mail, s.routes, s.count) && ToolInv(s.tools, s.routes, s.count) && MemoryInv(s.mem, s.count)
    requires LeaseInv(s.auth, s.count) && WorkInv(s.work, s.car, s.auth.controls, s.count)
    requires Records(s, i, a) && Records(s, k, b) && SameFact(a, b)
    requires OneActionEach(s.work)
    ensures i == k
  {
    hide *;
    if a.Tool? || a.Recall? {
      CallsOnce(s, i, k, a, b);
    } else if a.Top? || a.Prov? || a.Routing? || a.Post? {
      RoutingOnce(s, i, k, a, b);
    } else {
      ControlsOnce(s, i, k, a, b);
    }
  }

  /** No one-shot fact is ever recorded twice, in any run. */
  lemma {:induction false} HappensOnce(steps: seq<Step>, i: int, k: int)
    requires 0 <= i < |Run(steps)| && 0 <= k < |Run(steps)|
    requires SameFact(Run(steps)[i], Run(steps)[k])
    ensures i == k
  {
    hide SameFact, Run, Folded, Legal, Backed, Records, Inv;
    var j := Run(steps);
    RunIndexed(steps);
    Recorded(j, i);
    Recorded(j, k);
    ActionsIndexed(j);
    InvParts(Folded(j));
    StampsAgree(Folded(j), i + 1, k + 1, j[i], j[k]);
  }

  // ---- Retrying an interrupted command

  /** The commands whose durable phases a later identical command takes up again. */
  predicate Resumable(c: Command) {
    c.DeliverMessage? || c.DispatchControl? || c.ApplyControl?
  }

  /** After its first append the command plans exactly what is left, and nothing once it is complete. */
  ghost predicate Resumes(s: State, c: Command) {
    var plan := Plan(s, c);
    plan.Some? && |plan.value| > 0 ==>
      && |plan.value| <= 3
      && var next := Plan(Apply(s, plan.value[0]), c);
         if |plan.value| > 1 then next == Some(plan.value[1..]) else next in {None, Some([])}
  }

  lemma DeliverMessageResumes(s: State, r: int)
    ensures Resumes(s, DeliverMessage(r))
  {
    var plan := PlanDeliverMessage(s, r);
    if plan.Some? && s.routes[r].gate.Allowed? {
      var next := Apply(s, plan.value[0]);
      assert DispatchPart(next, r) == Some([]);
      assert [] + [plan.value[1]] == plan.value[1..];
      assert PlanDeliverMessage(next, r) == Some([] + [plan.value[1]]);
    }
  }

  lemma DispatchControlResumes(s: State, r: int)
    ensures Resumes(s, DispatchControl(r))
  {
    hide Fresh, RebuiltGate;
    var plan := PlanDispatchControl(s, r);
    if plan.Some? && |plan.value| > 0 {
      var next := Apply(s, plan.value[0]);
      if s.routes[r].gate.Allowed? {
        assert DispatchPart(next, r) == Some([]);
        assert PlanDispatchControl(next, r) == Some([] + plan.value[1..]);
        assert [] + plan.value[1..] == plan.value[1..];
      } else {
        assert plan.value[0].Carry?;
        assert r in next.car.deliveries;
      }
    }
  }

  lemma ApplyControlResumable(s: State, v: int, r: int)
    requires Inv(s)
    ensures Resumes(s, ApplyControl(v, r))
  {
    hide Inv;
    if PlanApplyControl(s, v, r).Some? {
      ApplyControlResumes(s, v, r);
    }
  }

  lemma ResumableResumes(s: State, c: Command)
    requires Inv(s) && Resumable(c)
    ensures Resumes(s, c)
  {
    hide Resumes, CarriageInv, TopInv, ProviderInv, GatesInv, EndsInv, MailInv, ToolInv, MemoryInv, StaffInv,
      SupervisionInv, LeaseInv, SingleAuthority, WorkInv;
    match c
    case DeliverMessage(r) => DeliverMessageResumes(s, r);
    case DispatchControl(r) => DispatchControlResumes(s, r);
    case ApplyControl(v, r) => ApplyControlResumable(s, v, r);
  }

  lemma AfterPlan(j: Journal, c: Command, n: nat)
    requires Replay(j) == Some(Folded(j))
    ensures
      var plan := Plan(Folded(j), c);
      After(j, Step(c, n)) == if plan.None? then j else j + plan.value[..Min(n, |plan.value|)]
  {
    hide Plan, Folded, Replay;
  }

  lemma FirstAppend(j: Journal, c: Command)
    requires Legal(j) && Plan(Folded(j), c).Some? && |Plan(Folded(j), c).value| > 0
    ensures
      var e := Plan(Folded(j), c).value[0];
      && Legal(j + [e]) && Folded(j + [e]) == Apply(Folded(j), e) && Replay(j) == Some(Folded(j))
      && Replay(j + [e]) == Some(Folded(j + [e]))
  {
    hide Legal, Inv, Apply, Plan;
    LegalReplays(j);
    var e := Plan(Folded(j), c).value[0];
    assert j + [e] == After(j, Step(c, 1));
    StepLegal(j, Step(c, 1));
    LegalReplays(j + [e]);
    assert (j + [e])[..|j|] == j;
  }

  /** From any durable prefix of its plan, the command appends the rest of it. */
  lemma {:induction false} RestAppended(j: Journal, c: Command, k: int)
    requires Legal(j) && Resumable(c) && Plan(Folded(j), c).Some? && 0 <= k <= |Plan(Folded(j), c).value|
    ensures After(j + Plan(Folded(j), c).value[..k], Step(c, 3)) == j + Plan(Folded(j), c).value
    decreases k
  {
    hide Legal, Inv, Apply, Plan, Folded, After, Replay;
    LegalReplays(j);
    ResumableResumes(Folded(j), c);
    var plan := Plan(Folded(j), c).value;
    if k == 0 {
      AfterPlan(j, c, 3);
      assert j + plan[..0] == j;
    } else {
      var next := j + [plan[0]];
      FirstAppend(j, c);
      if |plan| > 1 {
        RestAppended(next, c, k - 1);
        assert next + plan[1..][..k - 1] == j + plan[..k];
        assert next + plan[1..] == j + plan;
      } else {
        AfterPlan(next, c, 3);
        assert j + plan[..k] == j + plan == next;
      }
    }
  }

  lemma RunAppends(steps: seq<Step>, step: Step)
    ensures Run(steps + [step]) == After(Run(steps), step)
  {
    hide After;
    assert (steps + [step])[..|steps|] == steps;
  }

  /** A command interrupted anywhere and then retried leaves the journal of the uninterrupted run. */
  lemma RetryCompletes(steps: seq<Step>, c: Command, cut: nat)
    requires Resumable(c)
    ensures Run(steps + [Step(c, cut)] + [Step(c, 3)]) == Run(steps + [Step(c, 3)])
  {
    hide Legal, Inv, Plan, Folded, After, Replay, Resumable, Run;
    var j := Run(steps);
    RunLegal(steps);
    LegalReplays(j);
    RunAppends(steps, Step(c, cut));
    RunAppends(steps + [Step(c, cut)], Step(c, 3));
    RunAppends(steps, Step(c, 3));
    AfterPlan(j, c, cut);
    AfterPlan(j, c, 3);
    var plan := Plan(Folded(j), c);
    if plan.Some? {
      RestAppended(j, c, Min(cut, |plan.value|));
      RestAppended(j, c, 0);
      assert j + plan.value[..0] == j;
    }
  }
}
