/** What the verdict of an operation means, for every method that `Performs` its command. */
module Verdicts {
  import opened Common
  import opened Events
  import opened Replaying
  import opened Writer
  import opened Invariant
  import opened Log
  import opened Index
  import opened Runs
  import opened Uninterrupted
  import opened Requests
  import opened Acceptance
  import opened JournalOps

  /** After any run: a refusal means exactly that the command is not permitted and changes nothing, success
      that it did what was asked, and a storage failure that a proper prefix of that is durable. */
  lemma {:induction false} VerdictsMean(steps: seq<Step>, c: Command, room: nat, after: Journal, v: Verdict)
    requires Performs(Run(steps), c, room, after, v)
    ensures v.Refused? <==> !Permits(Folded(Run(steps)), c)
    ensures v.Refused? ==> after == Run(steps)
    ensures v.Done? ==> after == Run(steps + [Uncut(c)]) && Honours(Folded(Run(steps)), Folded(after), c)
    ensures v.StorageFailed? ==> Run(steps) <= after < Run(steps + [Uncut(c)]) && |after| == |Run(steps)| + room
    ensures !v.Disagreed?
  {
    hide Legal, Run, Folded, Plan, Permits, Honours, Inv, Backed, After, Replay;
    var j := Run(steps);
    RunIndexed(steps);
    AcceptedExactly(steps, c);
    AfterPlan(j, c, room);
    if Plan(Folded(j), c).Some? {
      var plan := Plan(Folded(j), c).value;
      PlansAreShort(Folded(j), c);
      UncutAppends(steps, c, plan);
      RequestHonoured(steps, c);
      assert plan[..|plan|] == plan;
    }
  }
}
