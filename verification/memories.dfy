/** Memory supersession in every run: disjoint simple paths, each ending at one head. */
module Memories {
  import opened Common
  import opened Events
  import opened Core
  import opened Replaying
  import opened Writer
  import opened Invariant
  import opened Safety
  import opened Log
  import opened Index
  import opened Runs

  /** The memory and everything that superseded it, oldest first. */
  ghost function Lineage(m: Memory, n: int, a: int): (path: seq<int>)
    requires MemoryInv(m, n) && a in m.artifacts
    ensures path != [] && path[0] == a
    decreases n - m.artifacts[a].at
  {
    if a in m.successor then [a] + Lineage(m, n, m.successor[a].id) else [a]
  }

  /** A lineage follows the successor relation to a memory without one, inside one conversation and
      strictly forward in recorded sequence. */
  lemma {:induction false} LineageEnds(m: Memory, n: int, a: int)
    requires MemoryInv(m, n) && a in m.artifacts
    ensures
      var path := Lineage(m, n, a);
      && (forall i | 0 <= i < |path| ::
            path[i] in m.artifacts && m.artifacts[path[i]].conversation == m.artifacts[a].conversation)
      && (forall i | 0 <= i < |path| - 1 :: path[i] in m.successor && m.successor[path[i]].id == path[i + 1])
      && (forall i, k | 0 <= i < k < |path| :: m.artifacts[path[i]].at < m.artifacts[path[k]].at)
      && path[|path| - 1] !in m.successor
    decreases n - m.artifacts[a].at
  {
    if a in m.successor {
      var rest := Lineage(m, n, m.successor[a].id);
      LineageEnds(m, n, m.successor[a].id);
      forall i, k | 0 <= i < k < |[a] + rest|
        ensures m.artifacts[([a] + rest)[i]].at < m.artifacts[([a] + rest)[k]].at
      {
        assert i == 0 && k > 1 ==> m.artifacts[rest[0]].at < m.artifacts[rest[k - 1]].at;
      }
    }
  }

  /** The lineage of a later memory is a suffix of the lineage it lies on. */
  lemma {:induction false} LineageSuffix(m: Memory, n: int, a: int, i: int)
    requires MemoryInv(m, n) && a in m.artifacts && 0 <= i < |Lineage(m, n, a)|
    ensures Lineage(m, n, a)[i] in m.artifacts && Lineage(m, n, Lineage(m, n, a)[i]) == Lineage(m, n, a)[i..]
    decreases i
  {
    if i > 0 {
      LineageSuffix(m, n, m.successor[a].id, i - 1);
      assert Lineage(m, n, a)[i..] == Lineage(m, n, m.successor[a].id)[i - 1..];
    }
  }

  /** Lineages never merge: if two of them share a memory, one contains the start of the other. */
  lemma {:induction false} LineagesDisjoint(m: Memory, n: int, a: int, b: int, i: int, k: int)
    requires MemoryInv(m, n) && a in m.artifacts && b in m.artifacts
    requires 0 <= i < |Lineage(m, n, a)| && 0 <= k < |Lineage(m, n, b)|
    requires Lineage(m, n, a)[i] == Lineage(m, n, b)[k]
    ensures a in Lineage(m, n, b) || b in Lineage(m, n, a)
    decreases i
  {
    if i > 0 && k > 0 {
      LineageEnds(m, n, a);
      LineageEnds(m, n, b);
      var x, y := Lineage(m, n, a)[i - 1], Lineage(m, n, b)[k - 1];
      assert x in m.successor && y in m.successor;
      assert x == y;
      LineagesDisjoint(m, n, a, b, i - 1, k - 1);
    }
  }

  /** In every run, memories that share a lineage share its head. */
  lemma {:induction false} HeadIsUnique(steps: seq<Step>, a: int, b: int)
    requires
      var m := Folded(Run(steps)).mem;
      MemoryInv(m, |Run(steps)|) && a in m.artifacts && b in m.artifacts && b in Lineage(m, |Run(steps)|, a)
    ensures
      var m, n := Folded(Run(steps)).mem, |Run(steps)|;
      && Lineage(m, n, b)[|Lineage(m, n, b)| - 1] == Lineage(m, n, a)[|Lineage(m, n, a)| - 1]
      && Lineage(m, n, a)[|Lineage(m, n, a)| - 1] !in m.successor
  {
    hide Run, Folded;
    var m, n := Folded(Run(steps)).mem, |Run(steps)|;
    var i :| 0 <= i < |Lineage(m, n, a)| && Lineage(m, n, a)[i] == b;
    LineageSuffix(m, n, a, i);
    LineageEnds(m, n, a);
  }

  lemma RunMemories(steps: seq<Step>)
    ensures MemoryInv(Folded(Run(steps)).mem, |Run(steps)|)
  {
    hide Legal, Run, Folded, Backed, TopInv, ProviderInv, GatesInv, EndsInv, MailInv, ToolInv, MemoryInv, StaffInv, SupervisionInv,
      LeaseInv, SingleAuthority, CarriageInv, WorkInv;
    RunIndexed(steps);
  }

  /** Nothing admits a memory after the event that superseded it. */
  lemma {:induction false} NoAdmitAfterSupersession(steps: seq<Step>, i: int, k: int, newer: int, a: int, v: int)
    requires 0 <= i < k < |Run(steps)| && Run(steps)[i] == Recall(MemorySuperseded(a, newer))
    ensures Run(steps)[k] != Recall(MemoryDecided(a, v, Admit))
  {
    hide Legal, Run, Folded, Inv;
    var j := Run(steps);
    RunLegal(steps);
    AdmittedAt(j, k);
    LegalPrefix(j, k);
    Recorded(j[..k], i);
  }
}
