/** Supervision, continuation authority and memory supersession in every run. */
module Authority {
  import opened Common
  import opened Events
  import opened Core
  import opened Replaying
  import opened Writer
  import opened Invariant
  import opened Safety
  import opened Log
  import opened Index
  import opened Runs

  // ---- Supervision

  /** A one-level bipartite forest: conversations and workers are paired, no session is on both sides,
      a supervised session hangs under a designated controller that is itself unsupervised. */
  lemma SupervisionIsForest(steps: seq<Step>)
    ensures
      var s := Folded(Run(steps));
      && (forall v | v in s.staff.bindings :: s.staff.bindings[v] in s.staff.owner && s.staff.owner[s.staff.bindings[v]] == v)
      && (forall w | w in s.staff.owner :: s.staff.owner[w] in s.staff.bindings && s.staff.bindings[s.staff.owner[w]] == w)
      && (forall x | x in s.sup.designated :: x in s.top.sessions && s.top.sessions[x].worker.None?)
      && (forall x | x in s.sup.supervisor ::
            && x in s.top.sessions && s.top.sessions[x].worker.Some? && x !in s.sup.designated
            && s.sup.supervisor[x].id in s.sup.designated && s.sup.supervisor[x].id !in s.sup.supervisor)
  {
    hide Legal, Run, Folded, Backed, TopInv, ProviderInv, GatesInv, EndsInv, MailInv, ToolInv, MemoryInv, LeaseInv,
      SingleAuthority, CarriageInv, WorkInv;
    RunIndexed(steps);
  }

  /** The sessions the worker was active on, in journal order. */
  function Tenure(j: Journal, w: int): seq<int> {
    if j == [] then []
    else
      var before := Tenure(j[..|j| - 1], w);
      match j[|j| - 1]
      case Top(WorkerSessionBound(x, session)) => if x == w then before + [session] else before
      case Top(WorkerSessionMoved(x, _, session)) => if x == w then before + [session] else before
      case _ => before
  }

  /** `b` succeeded `a` in the container that holds `b`. */
  predicate Succeeds(t: Topology, a: int, b: int) {
    && b in t.home && t.home[b] in t.containers && b in t.containers[t.home[b]].members
    && t.containers[t.home[b]].members[b].predecessor == Some(a)
  }

  /** The sessions bound to the worker are a contiguous predecessor chain that ends at the active one. */
  ghost predicate ChainOf(t: Topology, w: int, chain: seq<int>) {
    && (w in t.active <==> chain != [])
    && (chain != [] ==> t.active[w] == chain[|chain| - 1])
    && (forall i | 0 <= i < |chain| ::
          chain[i] in t.sessions && t.sessions[chain[i]].worker.Some? && t.sessions[chain[i]].worker.value.id == w)
    && (forall i | 0 < i < |chain| :: Succeeds(t, chain[i - 1], chain[i]))
    && (forall i, k | 0 <= i < k < |chain| :: chain[i] != chain[k])
  }

  lemma ChainKept(s: State, w: int, chain: seq<int>, x: TopEvent)
    requires HomeMaps(s.top) && ChainOf(s.top, w, chain) && AcceptsTopology(s, x)
    requires !(x.WorkerSessionBound? && x.worker == w) && !(x.WorkerSessionMoved? && x.worker == w)
    ensures ChainOf(ApplyTop(s.top, x, s.count + 1), w, chain)
  {
  }

  lemma ChainGrows(s: State, w: int, chain: seq<int>, x: TopEvent)
    requires HomeMaps(s.top) && ChainOf(s.top, w, chain) && AcceptsTopology(s, x) && LawfulSeats(s, x)
    requires (x.WorkerSessionBound? || x.WorkerSessionMoved?) && x.worker == w
    ensures ChainOf(ApplyTop(s.top, x, s.count + 1), w, chain + [if x.WorkerSessionBound? then x.session else x.successor])
  {
  }

  lemma OtherKeepsTop(s: State, e: Event)
    requires !e.Top?
    ensures Apply(s, e).top == s.top
  {
  }

  /** In every run, the sessions a worker has been active on form a contiguous predecessor chain. */
  lemma {:induction false} TenureIsChain(j: Journal, w: int)
    requires Legal(j)
    ensures ChainOf(Folded(j).top, w, Tenure(j, w))
  {
    hide Legal, Admits, Apply, ChainOf, Inv;
    if j == [] {
      EmptyChain(w);
    } else {
      var k, e := j[..|j| - 1], j[|j| - 1];
      LegalPrefix(j, |j| - 1);
      LegalReplays(k);
      AdmittedAt(j, |j| - 1);
      TenureIsChain(k, w);
      StepChain(Folded(k), w, Tenure(k, w), e);
    }
  }

  lemma EmptyChain(w: int)
    ensures ChainOf(EMPTY.top, w, [])
  {
  }

  lemma StepChain(s: State, w: int, chain: seq<int>, e: Event)
    requires Inv(s) && Admits(s, e) && ChainOf(s.top, w, chain)
    ensures
      ChainOf(Apply(s, e).top, w,
              match e
              case Top(WorkerSessionBound(x, session)) => if x == w then chain + [session] else chain
              case Top(WorkerSessionMoved(x, _, session)) => if x == w then chain + [session] else chain
              case _ => chain)
  {
    hide ChainOf, AcceptsTopology, LawfulSeats, ApplyTop, EndpointMaps, BindingMaps, HomeMaps, ProviderInv, GatesInv, EndsInv,
      MailInv, ToolInv, MemoryInv, StaffInv, SupervisionInv, LeaseInv, SingleAuthority, CarriageInv, WorkInv;
    if e.Top? {
      if (e.top.WorkerSessionBound? || e.top.WorkerSessionMoved?) && e.top.worker == w {
        ChainGrows(s, w, chain, e.top);
      } else {
        ChainKept(s, w, chain, e.top);
      }
    } else {
      OtherKeepsTop(s, e);
    }
  }

  lemma {:induction false} RunTenure(steps: seq<Step>, w: int)
    ensures ChainOf(Folded(Run(steps)).top, w, Tenure(Run(steps), w))
  {
    hide Legal, Run, Folded, ChainOf, Tenure;
    RunLegal(steps);
    TenureIsChain(Run(steps), w);
  }

  // ---- Continuation authority

  lemma AtMostOne<T>(x: set<T>)
    requires forall a, b | a in x && b in x :: a == b
    ensures |x| <= 1
  {
    if a :| a in x {
      assert x == {a};
    }
  }

  /** Per worker and goal at most one lease has allowance left and at most one permit is open, so the
      writer never meets ambiguous leases or several unconsumed permits. */
  lemma {:induction false} AuthorityIsUnambiguous(steps: seq<Step>, w: int, g: int)
    ensures
      var s := Folded(Run(steps));
      |LiveLeases(s, w, g)| <= 1 && |OpenPermits(s, w, g)| <= 1
  {
    hide Legal, Run, Folded, Backed, TopInv, ProviderInv, GatesInv, EndsInv, MailInv, ToolInv, MemoryInv, StaffInv, SupervisionInv,
      LeaseInv, CarriageInv, WorkInv, LiveLeases, OpenPermits;
    var s := Folded(Run(steps));
    RunIndexed(steps);
    LiveIsMembership(s, w, g);
    forall a, b | a in LiveLeases(s, w, g) && b in LiveLeases(s, w, g) ensures a == b {
      assert IsLive(s.auth, a, w, g) && IsLive(s.auth, b, w, g);
    }
    AtMostOne(LiveLeases(s, w, g));
    forall a, b | a in OpenPermits(s, w, g) && b in OpenPermits(s, w, g) ensures a == b {
      assert IsOpen(s.auth, a, w, g) && IsOpen(s.auth, b, w, g);
    }
    AtMostOne(OpenPermits(s, w, g));
  }

  /** A Continue is refused only when the worker is not working or no authority is left. */
  lemma {:induction false} ContinueNeedsOnlyAuthority(steps: seq<Step>, w: int, g: int, life: Lifecycle)
    requires life.goal == Some(g)
    ensures
      var s := Folded(Run(steps));
      PlanContinue(s, w, g, life).Some? <==>
        life.phase.Working? && (OpenPermits(s, w, g) != {} || LiveLeases(s, w, g) != {})
  {
    hide Legal, Run, Folded, Backed, TopInv, ProviderInv, GatesInv, EndsInv, MailInv, ToolInv, MemoryInv, StaffInv, SupervisionInv,
      SingleAuthority, CarriageInv, WorkInv, LiveLeases, OpenPermits;
    var s := Folded(Run(steps));
    RunIndexed(steps);
    AuthorityIsUnambiguous(steps, w, g);
    LiveIsMembership(s, w, g);
    var open, live := OpenPermits(s, w, g), LiveLeases(s, w, g);
    if |open| == 1 {
      assert IsOpen(s.auth, TheOnly(open), w, g);
      assert open != {};
    } else if |live| == 1 {
      assert IsLive(s.auth, TheOnly(live), w, g);
      assert live != {};
    }
  }

  // Conservation, counted in the journal

  /** The allowance a lease event adds for this worker and goal. */
  function GrantedBy(e: Event, w: int, g: int): int {
    match e
    case Grant(LeaseCreated(_, x, y, allowance)) => if x == w && y == g then allowance else 0
    case _ => 0
  }

  predicate Continues(e: Event, w: int, g: int) {
    e.Grant? && e.grant.ControlAdmitted? && e.grant.permit.Some? && e.grant.worker == w && e.grant.goal == g
  }

  predicate Executes(e: Event, w: int, g: int) {
    e.Doing? && e.doing.ExecutionStarted? && e.doing.worker == w && e.doing.goal == g
  }

  /** Allowance granted, Continue controls admitted and executions started in the journal. */
  function Granted(j: Journal, w: int, g: int): int {
    if j == [] then 0 else Granted(j[..|j| - 1], w, g) + GrantedBy(j[|j| - 1], w, g)
  }

  function Continued(j: Journal, w: int, g: int): int {
    if j == [] then 0 else Continued(j[..|j| - 1], w, g) + if Continues(j[|j| - 1], w, g) then 1 else 0
  }

  function Executed(j: Journal, w: int, g: int): int {
    if j == [] then 0 else Executed(j[..|j| - 1], w, g) + if Executes(j[|j| - 1], w, g) then 1 else 0
  }

  /** What the live lease, if there is one, may still issue. */
  ghost function Unissued(a: Mandate, w: int, g: int): int {
    if l :| IsLive(a, l, w, g) then a.leases[l].Remaining() else 0
  }

  /** Issued but not consumed: nought or one. */
  ghost function Outstanding(a: Mandate, w: int, g: int): int {
    if p :| IsOpen(a, p, w, g) then 1 else 0
  }

  ghost function ContinueControls(a: Mandate, w: int, g: int): set<int> {
    set c | c in a.controls && a.controls[c].permit.Some? && a.controls[c].worker == w && a.controls[c].goal == g
  }

  ghost function ExecutedControls(work: Work, w: int, g: int): set<int> {
    set c | c in work.executionOf && work.executionOf[c] in work.executions
            && work.executions[work.executionOf[c]].worker == w && work.executions[work.executionOf[c]].goal == g
  }

  ghost predicate Balanced(j: Journal, s: State, w: int, g: int) {
    && Granted(j, w, g) == Continued(j, w, g) + Outstanding(s.auth, w, g) + Unissued(s.auth, w, g)
    && Continued(j, w, g) == |ContinueControls(s.auth, w, g)|
    && Executed(j, w, g) == |ExecutedControls(s.work, w, g)|
  }

  lemma UnissuedIs(a: Mandate, w: int, g: int, l: int)
    requires SingleAuthority(a) && IsLive(a, l, w, g)
    ensures Unissued(a, w, g) == a.leases[l].Remaining()
  {
  }

  lemma SameUnissued(a: Mandate, b: Mandate, w: int, g: int)
    requires SingleAuthority(a) && SingleAuthority(b)
    requires forall l :: IsLive(a, l, w, g) <==> IsLive(b, l, w, g)
    requires forall l | IsLive(a, l, w, g) :: a.leases[l].Remaining() == b.leases[l].Remaining()
    ensures Unissued(a, w, g) == Unissued(b, w, g)
  {
    if l :| IsLive(a, l, w, g) {
      UnissuedIs(a, w, g, l);
      UnissuedIs(b, w, g, l);
    }
  }

  lemma LeaseBalances(s: State, w: int, g: int, x: MandateEvent)
    requires SingleAuthority(s.auth) && AcceptsMandate(s, x) && LawfulMandate(s, x) && x.LeaseCreated?
    ensures
      var next := ApplyMandate(s.auth, x, s.count + 1);
      Outstanding(next, w, g) == Outstanding(s.auth, w, g)
      && Unissued(next, w, g) == Unissued(s.auth, w, g) + GrantedBy(Grant(x), w, g)
  {
    LiveIsMembership(s, x.worker, x.goal);
    LeaseKeepsSingleAuthority(s, x);
    var next := ApplyMandate(s.auth, x, s.count + 1);
    assert forall p :: IsOpen(next, p, w, g) <==> IsOpen(s.auth, p, w, g);
    if w == x.worker && g == x.goal {
      assert forall l :: !IsLive(s.auth, l, w, g);
      UnissuedIs(next, w, g, x.lease);
    } else {
      SameUnissued(s.auth, next, w, g);
    }
  }

  lemma PermitBalances(s: State, w: int, g: int, x: MandateEvent)
    requires SingleAuthority(s.auth) && AcceptsMandate(s, x) && LawfulMandate(s, x) && x.PermitIssued?
    ensures
      var next := ApplyMandate(s.auth, x, s.count + 1);
      Outstanding(next, w, g) + Unissued(next, w, g) == Outstanding(s.auth, w, g) + Unissued(s.auth, w, g)
  {
    LiveIsMembership(s, x.worker, x.goal);
    PermitKeepsSingleAuthority(s, x);
    var next := ApplyMandate(s.auth, x, s.count + 1);
    var permit := PermitRef(x.lease, x.ordinal);
    if w == x.worker && g == x.goal {
      assert IsOpen(next, permit, w, g);
      assert IsLive(s.auth, x.lease, w, g);
      UnissuedIs(s.auth, w, g, x.lease);
      if IsLive(next, x.lease, w, g) {
        UnissuedIs(next, w, g, x.lease);
      } else {
        assert forall l :: IsLive(next, l, w, g) ==> IsLive(s.auth, l, w, g);
      }
    } else {
      assert forall p :: IsOpen(next, p, w, g) <==> IsOpen(s.auth, p, w, g);
      SameUnissued(s.auth, next, w, g);
    }
  }

  lemma ControlBalances(s: State, w: int, g: int, x: MandateEvent)
    requires SingleAuthority(s.auth) && AcceptsMandate(s, x) && x.ControlAdmitted?
    ensures
      var next := ApplyMandate(s.auth, x, s.count + 1);
      Outstanding(next, w, g) + (if Continues(Grant(x), w, g) then 1 else 0) == Outstanding(s.auth, w, g)
      && Unissued(next, w, g) == Unissued(s.auth, w, g)
  {
    ControlKeepsSingleAuthority(s, x);
    var next := ApplyMandate(s.auth, x, s.count + 1);
    SameUnissued(s.auth, next, w, g);
    if Continues(Grant(x), w, g) {
      var permit := x.permit.value;
      assert IsOpen(s.auth, permit, w, g) && !IsOpen(next, permit, w, g);
      assert forall p :: IsOpen(next, p, w, g) ==> IsOpen(s.auth, p, w, g);
      assert forall p :: IsOpen(s.auth, p, w, g) ==> p == permit;
    } else {
      assert forall p :: IsOpen(next, p, w, g) <==> IsOpen(s.auth, p, w, g);
    }
  }

  lemma MandateBalances(s: State, w: int, g: int, x: MandateEvent)
    requires SingleAuthority(s.auth) && AcceptsMandate(s, x) && LawfulMandate(s, x)
    ensures
      var next := ApplyMandate(s.auth, x, s.count + 1);
      && GrantedBy(Grant(x), w, g) + Outstanding(s.auth, w, g) + Unissued(s.auth, w, g)
         == (if Continues(Grant(x), w, g) then 1 else 0) + Outstanding(next, w, g) + Unissued(next, w, g)
      && |ContinueControls(next, w, g)| == |ContinueControls(s.auth, w, g)| + if Continues(Grant(x), w, g) then 1 else 0
  {
    var before, after := ContinueControls(s.auth, w, g), ContinueControls(ApplyMandate(s.auth, x, s.count + 1), w, g);
    hide SingleAuthority, LawfulMandate;
    assert after == if Continues(Grant(x), w, g) then before + {x.control} else before;
    hide Outstanding, Unissued, ContinueControls, AcceptsMandate, ApplyMandate;
    match x
    case LeaseCreated(_, _, _, _) => LeaseBalances(s, w, g, x);
    case PermitIssued(_, _, _, _) => PermitBalances(s, w, g, x);
    case ControlAdmitted(_, _, _, _, _) => ControlBalances(s, w, g, x);
  }

  lemma WorkBalances(s: State, w: int, g: int, x: WorkEvent)
    requires AcceptsWork(s, x) && WorkInv(s.work, s.car, s.auth.controls, s.count)
    ensures |ExecutedControls(ApplyWork(s.work, x, s.count + 1), w, g)|
            == |ExecutedControls(s.work, w, g)| + if Executes(Doing(x), w, g) then 1 else 0
  {
    var before, after := ExecutedControls(s.work, w, g), ExecutedControls(ApplyWork(s.work, x, s.count + 1), w, g);
    if x.ExecutionStarted? {
      var next := ApplyWork(s.work, x, s.count + 1);
      forall c ensures c in after <==> c in before || (Executes(Doing(x), w, g) && c == x.control) {
        if c in s.work.executionOf {
          assert next.executionOf[c] == s.work.executionOf[c];
        }
      }
      assert after == if Executes(Doing(x), w, g) then before + {x.control} else before;
    } else {
      assert after == before;
    }
  }

  lemma JournalCounts(j: Journal, w: int, g: int, e: Event)
    ensures Granted(j + [e], w, g) == Granted(j, w, g) + GrantedBy(e, w, g)
    ensures Continued(j + [e], w, g) == Continued(j, w, g) + if Continues(e, w, g) then 1 else 0
    ensures Executed(j + [e], w, g) == Executed(j, w, g) + if Executes(e, w, g) then 1 else 0
  {
    assert (j + [e])[..|j|] == j;
  }

  lemma StepBalances(j: Journal, s: State, w: int, g: int, e: Event)
    requires Balanced(j, s, w, g) && Inv(s) && Admits(s, e)
    ensures Balanced(j + [e], Apply(s, e), w, g)
  {
    JournalCounts(j, w, g, e);
    hide AcceptsMandate, AcceptsWork, LawfulMandate, ApplyMandate, ApplyWork, Outstanding, Unissued, ContinueControls,
      ExecutedControls, TopInv, ProviderInv, GatesInv, EndsInv, MailInv, ToolInv, MemoryInv, StaffInv, SupervisionInv, LeaseInv,
      SingleAuthority, CarriageInv, WorkInv, Granted, Continued, Executed;
    match e
    case Grant(x) => MandateBalances(s, w, g, x);
    case Doing(x) => WorkBalances(s, w, g, x);
    case Staff(x) => TransitionBalances(s, w, g, x);
    case _ =>
  }

  lemma TransitionBalances(s: State, w: int, g: int, x: StaffEvent)
    ensures ExecutedControls(MarkTransition(s.work, s.staff, x, s.count + 1), w, g) == ExecutedControls(s.work, w, g)
  {
  }

  lemma {:induction false} AlwaysBalanced(j: Journal, w: int, g: int)
    requires Legal(j)
    ensures Balanced(j, Folded(j), w, g)
  {
    hide Legal, Admits, Apply, Inv, Balanced;
    if j == [] {
      EmptyBalanced(w, g);
    } else {
      var k, e := j[..|j| - 1], j[|j| - 1];
      LegalPrefix(j, |j| - 1);
      LegalReplays(k);
      AdmittedAt(j, |j| - 1);
      AlwaysBalanced(k, w, g);
      StepBalances(k, Folded(k), w, g, e);
      assert k + [e] == j;
    }
  }

  lemma EmptyBalanced(w: int, g: int)
    ensures Balanced([], EMPTY, w, g)
  {
  }

  lemma ExecutedAreControls(s: State, w: int, g: int)
    requires WorkInv(s.work, s.car, s.auth.controls, s.count)
    ensures |ExecutedControls(s.work, w, g)| <= |ContinueControls(s.auth, w, g)|
  {
    var x, y := ExecutedControls(s.work, w, g), ContinueControls(s.auth, w, g);
    forall c | c in x ensures c in y {
      assert ExecutionInv(s.work.executions[s.work.executionOf[c]], s.work.executionOf[c], s.car, s.auth.controls);
    }
    assert x <= y;
    assert |y - x| == |y| - |x|;
  }

  /** Authority is conserved: at every point of every run, the allowance ever granted to a worker and
      goal is what controls have consumed, plus at most one open permit, plus what the one live lease
      may still issue; and executions never exceed the consumed permits. */
  lemma {:induction false} AuthorityIsConserved(steps: seq<Step>, w: int, g: int)
    ensures
      var j, a := Run(steps), Folded(Run(steps)).auth;
      && Granted(j, w, g) == Continued(j, w, g) + Outstanding(a, w, g) + Unissued(a, w, g)
      && Outstanding(a, w, g) in {0, 1} && 0 <= Unissued(a, w, g)
      && Executed(j, w, g) <= Continued(j, w, g) <= Granted(j, w, g)
  {
    hide Legal, Run, Folded, Backed, TopInv, ProviderInv, GatesInv, EndsInv, MailInv, ToolInv, MemoryInv, StaffInv,
      SupervisionInv, LeaseInv, SingleAuthority, CarriageInv, WorkInv, Granted, Continued, Executed;
    RunIndexed(steps);
    AlwaysBalanced(Run(steps), w, g);
    ExecutedAreControls(Folded(Run(steps)), w, g);
  }
}
