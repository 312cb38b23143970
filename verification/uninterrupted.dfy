/** Commands that nothing interrupts: the journal they leave and its replayed state. */
module Uninterrupted {
  import opened Common
  import opened Events
  import opened Core
  import opened Replaying
  import opened Writer
  import opened Invariant
  import opened Safety
  import opened Log
  import opened Index
  import opened Runs

  function ApplyAll(s: State, events: seq<Event>): State {
    if events == [] then s else Apply(ApplyAll(s, events[..|events| - 1]), events[|events| - 1])
  }

  lemma {:induction false} FoldedAll(j: Journal, events: seq<Event>)
    ensures Folded(j + events) == ApplyAll(Folded(j), events)
  {
    hide Apply;
    if events == [] {
      assert j + events == j;
    } else {
      var before := events[..|events| - 1];
      FoldedAll(j, before);
      assert (j + events)[..|j + events| - 1] == j + before;
    }
  }

  /** No command appends more than five events, so this cut interrupts nothing. */
  function Uncut(c: Command): Step {
    Step(c, 5)
  }

  lemma UncutAppends(steps: seq<Step>, c: Command, events: seq<Event>)
    requires Plan(Folded(Run(steps)), c) == Some(events) && |events| <= 5
    ensures Run(steps + [Uncut(c)]) == Run(steps) + events
    ensures Folded(Run(steps + [Uncut(c)])) == ApplyAll(Folded(Run(steps)), events)
  {
    hide Legal, Run, Folded, Plan, Inv, Replay, After;
    RunLegal(steps);
    LegalReplays(Run(steps));
    RunAppends(steps, Uncut(c));
    AfterPlan(Run(steps), c, 5);
    assert events[..|events|] == events;
    FoldedAll(Run(steps), events);
  }

  lemma ApplyOne(s: State, e: Event)
    ensures ApplyAll(s, [e]) == Apply(s, e)
  {
    hide Apply;
    assert [e][..0] == [];
  }

  lemma ApplyTwo(s: State, e1: Event, e2: Event)
    ensures ApplyAll(s, [e1, e2]) == Apply(Apply(s, e1), e2)
  {
    hide Apply;
    assert [e1, e2][..1] == [e1];
    ApplyOne(s, e1);
  }

  lemma ApplyThree(s: State, e1: Event, e2: Event, e3: Event)
    ensures ApplyAll(s, [e1, e2, e3]) == Apply(Apply(Apply(s, e1), e2), e3)
  {
    hide Apply;
    assert [e1, e2, e3][..2] == [e1, e2] && [e1, e2][..1] == [e1];
    ApplyOne(s, e1);
  }

  lemma ApplyFour(s: State, e1: Event, e2: Event, e3: Event, e4: Event)
    ensures ApplyAll(s, [e1, e2, e3, e4]) == Apply(Apply(Apply(Apply(s, e1), e2), e3), e4)
  {
    hide Apply;
    assert [e1, e2, e3, e4][..3] == [e1, e2, e3];
    ApplyThree(s, e1, e2, e3);
  }
}
