/** The journal's readers (mcp_result_review.rs, mcp_context_inventory.rs): fail-closed correlation
    checks over replayed records, and the proof that no journal the writer leaves behind fails them. */
module Readers {
  import opened Common
  import opened Events
  import opened Replaying
  import opened Writer
  import opened Invariant
  import opened Log
  import opened Index
  import opened Runs

  datatype CallRecord = CallRecord(id: int, call: Call)
  datatype OutcomeRecord = OutcomeRecord(id: int, outcome: Outcome)
  datatype ContextRecord = ContextRecord(id: int, evidence: Evidence)
  datatype Admitted = Admitted(id: int, evidence: Evidence, text: string)
  datatype Row = Row(admitted: Admitted, call: CallRecord)

  // ---- Sorting, newest first

  datatype Key = Key(first: int, second: int, third: int) {
    predicate AtLeast(other: Key) {
      first > other.first
      || (first == other.first && (second > other.second || (second == other.second && third >= other.third)))
    }
  }

  function Insert<T>(x: T, xs: seq<T>, key: T -> Key): (r: seq<T>)
    ensures multiset(r) == multiset{x} + multiset(xs)
  {
    if xs == [] then [x]
    else if key(x).AtLeast(key(xs[0])) then [x] + xs
    else
      assert xs == [xs[0]] + xs[1..];
      [xs[0]] + Insert(x, xs[1..], key)
  }

  /** Descending by key; stands for the library sort, whose order among equal keys is unspecified. */
  function Sort<T>(xs: seq<T>, key: T -> Key): (r: seq<T>)
    ensures multiset(r) == multiset(xs)
  {
    if xs == [] then []
    else
      assert xs == [xs[0]] + xs[1..];
      Insert(xs[0], Sort(xs[1..], key), key)
  }

  ghost predicate Descending<T(!new)>(xs: seq<T>, key: T -> Key) {
    forall i, k | 0 <= i < k < |xs| :: key(xs[i]).AtLeast(key(xs[k]))
  }

  lemma {:induction false} InsertDescends<T(!new)>(x: T, xs: seq<T>, key: T -> Key)
    requires Descending(xs, key)
    ensures Descending(Insert(x, xs, key), key)
  {
    if xs != [] && !key(x).AtLeast(key(xs[0])) {
      InsertDescends(x, xs[1..], key);
      var rest := Insert(x, xs[1..], key);
      forall k | 0 <= k < |rest| ensures key(xs[0]).AtLeast(key(rest[k])) {
        assert rest[k] in multiset(rest);
        assert rest[k] == x || rest[k] in xs[1..];
      }
    }
  }

  lemma {:induction false} SortDescends<T(!new)>(xs: seq<T>, key: T -> Key)
    ensures Descending(Sort(xs, key), key)
  {
    if xs != [] {
      SortDescends(xs[1..], key);
      InsertDescends(xs[0], Sort(xs[1..], key), key);
    }
  }

  // ---- mcp_result_review.rs

  /** Every immutable identity of the call agrees with the outcome, in journal order. */
  predicate MatchesRecordedCall(c: CallRecord, o: OutcomeRecord) {
    && c.id == o.id && c.call.provider == o.outcome.provider && c.call.session == o.outcome.session
    && c.call.route.Some? && c.call.route.value.id == o.outcome.route
    && c.call.recorded == o.outcome.recorded && c.call.route.value.at == o.outcome.bound
    && c.call.recorded < o.outcome.bound < o.outcome.dispatch < o.outcome.observed
  }

  /** In every run, every outcome matches the call it belongs to. */
  lemma OutcomesMatchCalls(steps: seq<Step>, id: int)
    requires id in Folded(Run(steps)).tools.outcomes
    ensures
      var k := Folded(Run(steps)).tools;
      id in k.calls && MatchesRecordedCall(CallRecord(id, k.calls[id]), OutcomeRecord(id, k.outcomes[id]))
  {
    hide Legal, Run, Folded, Backed, TopInv, ProviderInv, GatesInv, EndsInv, MailInv, MemoryInv, StaffInv, SupervisionInv,
      LeaseInv, SingleAuthority, CarriageInv, WorkInv;
    RunIndexed(steps);
    var s := Folded(Run(steps));
    assert OutcomeInv(s.tools, id, s.routes, s.count);
    assert CallInv(s.tools, id, s.routes, s.count);
  }

  // ---- mcp_context_inventory.rs

  function Matching(calls: seq<CallRecord>, id: int): (r: seq<CallRecord>)
    ensures forall c :: c in r <==> c in calls && c.id == id
  {
    if calls == [] then []
    else Matching(calls[..|calls| - 1], id) + if calls[|calls| - 1].id == id then [calls[|calls| - 1]] else []
  }

  predicate ValidEvidence(a: Admitted, v: int) {
    && a.evidence.conversation == v && a.evidence.verdict.Admit? && ByteLength(a.text) <= MAX_CONTEXT_BYTES
    && a.evidence.observed < a.evidence.first <= a.evidence.last
  }

  predicate Correlated(a: Admitted, c: CallRecord) {
    && c.call.provider == a.evidence.provider && c.call.session == a.evidence.session
    && c.call.route.Some? && c.call.route.value.id == a.evidence.route && c.call.recorded < a.evidence.observed
    && c.call.recorded < c.call.route.value.at < a.evidence.observed
  }

  /** The item is valid, new, and joins exactly one correlated call. */
  predicate Joins(admitted: seq<Admitted>, i: nat, calls: seq<CallRecord>, v: int)
    requires i < |admitted|
  {
    && ValidEvidence(admitted[i], v)
    && (forall k | 0 <= k < i :: admitted[k].id != admitted[i].id)
    && |Matching(calls, admitted[i].id)| == 1 && Correlated(admitted[i], Matching(calls, admitted[i].id)[0])
  }

  predicate Consistent(admitted: seq<Admitted>, calls: seq<CallRecord>, v: int) {
    forall i | 0 <= i < |admitted| :: Joins(admitted, i, calls, v)
  }

  /** The joined rows in input order. */
  function Joined(admitted: seq<Admitted>, calls: seq<CallRecord>, v: int): seq<Row>
    requires Consistent(admitted, calls, v)
  {
    seq(|admitted|, i requires 0 <= i < |admitted| =>
      assert Joins(admitted, i, calls, v);
      Row(admitted[i], Matching(calls, admitted[i].id)[0]))
  }

  function RowKey(r: Row): Key {
    Key(r.admitted.evidence.last, r.admitted.evidence.observed, r.admitted.id)
  }

  /** By latest decision, then by outcome, then by identity. */
  ghost predicate NewestFirst(rows: seq<Row>) {
    forall i, k | 0 <= i < k < |rows| ::
      var a, b := rows[i].admitted, rows[k].admitted;
      && b.evidence.last <= a.evidence.last
      && (b.evidence.last == a.evidence.last ==> b.evidence.observed <= a.evidence.observed)
      && (b.evidence.last == a.evidence.last && b.evidence.observed == a.evidence.observed ==> b.id <= a.id)
  }

  lemma DescendingIsNewestFirst(rows: seq<Row>)
    requires Descending(rows, RowKey)
    ensures NewestFirst(rows)
  {
    forall i, k | 0 <= i < k < |rows| ensures RowKey(rows[i]).AtLeast(RowKey(rows[k])) {
    }
  }

  /** One call, its outcome and its admission: the same identities, in the order call, binding, outcome,
      first decision, latest decision, within 64 KiB and admitted for this conversation. */
  predicate Agreeing(row: Row, v: int) {
    var e, c := row.admitted.evidence, row.call.call;
    && row.admitted.id == row.call.id && e.provider == c.provider && e.session == c.session
    && c.route.Some? && c.route.value.id == e.route
    && c.recorded < c.route.value.at < e.observed < e.first <= e.last
    && e.conversation == v && e.verdict.Admit? && ByteLength(row.admitted.text) <= 65536
  }

  lemma JoinedAgree(admitted: seq<Admitted>, calls: seq<CallRecord>, v: int, row: Row)
    requires Consistent(admitted, calls, v) && row in Joined(admitted, calls, v)
    ensures row.admitted in admitted && row.call in calls && Agreeing(row, v)
  {
    hide ByteLength;
    var i :| 0 <= i < |admitted| && Joined(admitted, calls, v)[i] == row;
    assert Joins(admitted, i, calls, v);
    assert row.call in Matching(calls, admitted[i].id);
  }

  /** The first record with this identity, and whether there is a second one. */
  method FindCall(calls: seq<CallRecord>, id: int) returns (first: Option<CallRecord>, second: bool)
    ensures first == if |Matching(calls, id)| > 0 then Some(Matching(calls, id)[0]) else None
    ensures second <==> |Matching(calls, id)| > 1
  {
    first, second := None, false;
    var i := 0;
    while i < |calls|
      invariant 0 <= i <= |calls|
      invariant first == if |Matching(calls[..i], id)| > 0 then Some(Matching(calls[..i], id)[0]) else None
      invariant second <==> |Matching(calls[..i], id)| > 1
    {
      assert calls[..i + 1][..i] == calls[..i];
      if calls[i].id == id {
        if first.None? {
          first := Some(calls[i]);
        } else {
          second := true;
        }
      }
      i := i + 1;
    }
    assert calls[..i] == calls;
  }

  /** Rejects the whole set unless every item joins its call; otherwise returns all rows, newest first. */
  method VerifiedInventory(admitted: seq<Admitted>, calls: seq<CallRecord>, v: int) returns (r: Option<seq<Row>>)
    ensures r.Some? <==> Consistent(admitted, calls, v)
    ensures r.Some? ==> multiset(r.value) == multiset(Joined(admitted, calls, v)) && NewestFirst(r.value)
    ensures r.Some? ==> forall row | row in r.value :: row.admitted in admitted && row.call in calls && Agreeing(row, v)
  {
    hide Matching, ValidEvidence, Correlated, Descending, NewestFirst, Agreeing;
    var seen: set<int> := {};
    var rows: seq<Row> := [];
    var i := 0;
    while i < |admitted|
      invariant 0 <= i <= |admitted| == |admitted| && |rows| == i
      invariant seen == set k | 0 <= k < i :: admitted[k].id
      invariant forall k | 0 <= k < i :: Joins(admitted, k, calls, v) && rows[k] == Row(admitted[k], Matching(calls, admitted[k].id)[0])
    {
      var item := admitted[i];
      var first, second := FindCall(calls, item.id);
      if !ValidEvidence(item, v) || item.id in seen || first.None? || second || !Correlated(item, first.value) {
        assert !Joins(admitted, i, calls, v);
        return None;
      }
      assert Joins(admitted, i, calls, v);
      seen := seen + {item.id};
      rows := rows + [Row(item, first.value)];
      i := i + 1;
    }
    assert rows == Joined(admitted, calls, v);
    SortDescends(rows, RowKey);
    r := Some(Sort(rows, RowKey));
    DescendingIsNewestFirst(r.value);
    forall row | row in r.value ensures row.admitted in admitted && row.call in calls && Agreeing(row, v) {
      assert row in multiset(r.value);
      JoinedAgree(admitted, calls, v, row);
    }
  }

  // ---- What the replayed state hands to the readers

  /** Exactly the state's calls, each once. */
  ghost predicate ListsCalls(k: Tools, calls: seq<CallRecord>) {
    && (forall i | 0 <= i < |calls| :: calls[i].id in k.calls && calls[i].call == k.calls[calls[i].id])
    && (forall i, m | 0 <= i < m < |calls| :: calls[i].id != calls[m].id)
    && (forall id | id in k.calls :: CallRecord(id, k.calls[id]) in calls)
  }

  /** The conversation's results whose latest decision is Admit, each at most once. */
  ghost predicate ListsAdmitted(k: Tools, admitted: seq<Admitted>, v: int) {
    && (forall i | 0 <= i < |admitted| ::
          var a := admitted[i];
          && a.id in k.admissions && a.id in k.outcomes && a.evidence == k.admissions[a.id]
          && a.evidence.conversation == v && a.evidence.verdict.Admit? && a.text == k.outcomes[a.id].text)
    && (forall i, m | 0 <= i < m < |admitted| :: admitted[i].id != admitted[m].id)
  }

  lemma NoneMatching(calls: seq<CallRecord>, id: int)
    requires forall i | 0 <= i < |calls| :: calls[i].id != id
    ensures Matching(calls, id) == []
  {
  }

  lemma {:induction false} MatchingIsUnique(calls: seq<CallRecord>, c: CallRecord)
    requires c in calls && forall i, m | 0 <= i < m < |calls| :: calls[i].id != calls[m].id
    ensures Matching(calls, c.id) == [c]
  {
    var before := calls[..|calls| - 1];
    if calls[|calls| - 1] == c {
      NoneMatching(before, c.id);
    } else {
      MatchingIsUnique(before, c);
    }
  }

  /** No journal a run leaves behind is ever rejected by the inventory, for any conversation. */
  lemma InventoryNeverRejects(steps: seq<Step>, admitted: seq<Admitted>, calls: seq<CallRecord>, v: int)
    requires ListsCalls(Folded(Run(steps)).tools, calls) && ListsAdmitted(Folded(Run(steps)).tools, admitted, v)
    ensures Consistent(admitted, calls, v)
  {
    hide Legal, Run, Folded, Backed, TopInv, ProviderInv, GatesInv, EndsInv, MailInv, MemoryInv, StaffInv, SupervisionInv,
      LeaseInv, SingleAuthority, CarriageInv, WorkInv, Matching;
    RunIndexed(steps);
    var s := Folded(Run(steps));
    forall i | 0 <= i < |admitted| ensures Joins(admitted, i, calls, v) {
      var id := admitted[i].id;
      assert EvidenceInv(s.tools, id, s.count);
      assert OutcomeInv(s.tools, id, s.routes, s.count);
      assert CallInv(s.tools, id, s.routes, s.count);
      MatchingIsUnique(calls, CallRecord(id, s.tools.calls[id]));
    }
  }

  // ---- recent_result_queue

  datatype Stage = ExcludedByDefault | ExplicitlyExcluded | ShownAdmitted | TooLargeToAdmit
  datatype Focused = Focused(outcome: OutcomeRecord, stage: Stage)

  const RECENT_CANDIDATES := 16

  /** `classify` */
  function Classify(verdict: Option<MemoryDecision>, bytes: int): Stage {
    if bytes > MAX_CONTEXT_BYTES then TooLargeToAdmit
    else
      match verdict
      case Some(Admit) => ShownAdmitted
      case Some(Exclude) => ExplicitlyExcluded
      case None => ExcludedByDefault
  }

  function Priority(stage: Stage): int {
    match stage
    case ExcludedByDefault => 3
    case ShownAdmitted => 2
    case ExplicitlyExcluded => 1
    case TooLargeToAdmit => 0
  }

  function OfProvider(outcomes: seq<OutcomeRecord>, p: int): (r: seq<OutcomeRecord>)
    ensures forall o :: o in r <==> o in outcomes && o.outcome.provider == p
  {
    if outcomes == [] then []
    else OfProvider(outcomes[..|outcomes| - 1], p)
         + if outcomes[|outcomes| - 1].outcome.provider == p then [outcomes[|outcomes| - 1]] else []
  }

  /** The newest outcomes of the provider that the review window considers. */
  function Candidates(outcomes: seq<OutcomeRecord>, p: int): seq<OutcomeRecord> {
    var newest := Sort(OfProvider(outcomes, p), (o: OutcomeRecord) => Key(o.outcome.observed, 0, 0));
    newest[..Min(RECENT_CANDIDATES, |newest|)]
  }

  function Decisions(records: seq<ContextRecord>, id: int): (r: seq<ContextRecord>)
    ensures forall c :: c in r <==> c in records && c.id == id
  {
    if records == [] then []
    else Decisions(records[..|records| - 1], id)
         + if records[|records| - 1].id == id then [records[|records| - 1]] else []
  }

  predicate Agrees(c: ContextRecord, o: OutcomeRecord, v: int) {
    && c.evidence.conversation == v && c.evidence.observed == o.outcome.observed && c.evidence.route == o.outcome.route
    && c.evidence.provider == o.outcome.provider && c.evidence.session == o.outcome.session
    && c.evidence.kind == o.outcome.kind
  }

  /** A candidate is skipped when another conversation owns it; an owned one needs at most one decision
      record, and that one must agree with the outcome. */
  predicate Reviewable(o: OutcomeRecord, records: seq<ContextRecord>, v: int) {
    o.outcome.owner == Some(v) ==>
      |Decisions(records, o.id)| <= 1 && (|Decisions(records, o.id)| == 1 ==> Agrees(Decisions(records, o.id)[0], o, v))
  }

  function StageOf(o: OutcomeRecord, records: seq<ContextRecord>): Stage {
    var d := Decisions(records, o.id);
    Classify(if |d| > 0 then Some(d[0].evidence.verdict) else None, ByteLength(o.outcome.text))
  }

  /** The owned candidates with their stages, in candidate order. */
  function Owned(candidates: seq<OutcomeRecord>, records: seq<ContextRecord>, v: int): seq<Focused> {
    if candidates == [] then []
    else
      var last := candidates[|candidates| - 1];
      Owned(candidates[..|candidates| - 1], records, v)
      + if last.outcome.owner == Some(v) then [Focused(last, StageOf(last, records))] else []
  }

  function FocusKey(f: Focused): Key {
    Key(Priority(f.stage), f.outcome.outcome.observed, f.outcome.id)
  }

  /** Undecided results come first, then admitted, then excluded, then too large ones; newest first among equals. */
  ghost predicate InFocusOrder(queue: seq<Focused>) {
    forall i, k | 0 <= i < k < |queue| ::
      var a, b := queue[i].stage, queue[k].stage;
      && (b.ExcludedByDefault? ==> a.ExcludedByDefault?)
      && (b.ShownAdmitted? ==> a.ExcludedByDefault? || a.ShownAdmitted?)
      && (a.TooLargeToAdmit? ==> b.TooLargeToAdmit?)
      && (a == b ==> queue[k].outcome.outcome.observed <= queue[i].outcome.outcome.observed)
  }

  lemma DescendingIsFocusOrder(queue: seq<Focused>)
    requires Descending(queue, FocusKey)
    ensures InFocusOrder(queue)
  {
    forall i, k | 0 <= i < k < |queue| ensures FocusKey(queue[i]).AtLeast(FocusKey(queue[k])) {
    }
  }

  /** A result over 64 KiB can not be admitted whatever was decided; otherwise its one decision fixes the stage. */
  lemma DecisionFixesStage(o: OutcomeRecord, records: seq<ContextRecord>)
    ensures ByteLength(o.outcome.text) > 65536 <==> StageOf(o, records).TooLargeToAdmit?
    ensures ByteLength(o.outcome.text) <= 65536 && (forall c | c in records :: c.id != o.id) ==>
              StageOf(o, records) == ExcludedByDefault
    ensures forall c | c in records && c.id == o.id && |Decisions(records, o.id)| == 1 && ByteLength(o.outcome.text) <= 65536 ::
              StageOf(o, records) == if c.evidence.verdict.Admit? then ShownAdmitted else ExplicitlyExcluded
  {
    hide ByteLength;
    var d := Decisions(records, o.id);
    if |d| > 0 {
      assert d[0] in d;
    }
    forall c | c in records && c.id == o.id ensures c in d {
    }
  }

  method FindDecision(records: seq<ContextRecord>, id: int) returns (first: Option<ContextRecord>, second: bool)
    ensures first == if |Decisions(records, id)| > 0 then Some(Decisions(records, id)[0]) else None
    ensures second <==> |Decisions(records, id)| > 1
  {
    first, second := None, false;
    var i := 0;
    while i < |records|
      invariant 0 <= i <= |records|
      invariant first == if |Decisions(records[..i], id)| > 0 then Some(Decisions(records[..i], id)[0]) else None
      invariant second <==> |Decisions(records[..i], id)| > 1
    {
      assert records[..i + 1][..i] == records[..i];
      if records[i].id == id {
        if first.None? {
          first := Some(records[i]);
        } else {
          second := true;
        }
      }
      i := i + 1;
    }
    assert records[..i] == records;
  }

  lemma {:induction false} OwnedAreOwned(candidates: seq<OutcomeRecord>, records: seq<ContextRecord>, v: int, f: Focused)
    requires f in Owned(candidates, records, v)
    ensures f.outcome in candidates && f.outcome.outcome.owner == Some(v) && f.stage == StageOf(f.outcome, records)
  {
    var front := candidates[..|candidates| - 1];
    if f in Owned(front, records, v) {
      OwnedAreOwned(front, records, v, f);
    }
  }

  /** One disagreement among the candidates blocks the whole queue. */
  method RecentQueue(outcomes: seq<OutcomeRecord>, records: seq<ContextRecord>, p: int, v: int)
    returns (r: Option<seq<Focused>>)
    ensures r.Some? <==> forall o | o in Candidates(outcomes, p) :: Reviewable(o, records, v)
    ensures r.Some? ==>
      && multiset(r.value) == multiset(Owned(Candidates(outcomes, p), records, v))
      && InFocusOrder(r.value)
      && forall f | f in r.value :: f.outcome in outcomes && f.outcome.outcome.provider == p && f.outcome.outcome.owner == Some(v)
  {
    hide Decisions, Candidates, Classify, Agrees, Descending, InFocusOrder;
    var candidates := Candidates(outcomes, p);
    var queue: seq<Focused> := [];
    var i := 0;
    while i < |candidates|
      invariant 0 <= i <= |candidates|
      invariant forall k | 0 <= k < i :: Reviewable(candidates[k], records, v)
      invariant queue == Owned(candidates[..i], records, v)
    {
      assert candidates[..i + 1][..i] == candidates[..i];
      var o := candidates[i];
      if o.outcome.owner == Some(v) {
        var first, second := FindDecision(records, o.id);
        if second || (first.Some? && !Agrees(first.value, o, v)) {
          assert o in candidates && !Reviewable(o, records, v);
          return None;
        }
        queue := queue + [Focused(o, Classify(if first.Some? then Some(first.value.evidence.verdict) else None,
                                              ByteLength(o.outcome.text)))];
      }
      i := i + 1;
    }
    assert candidates[..i] == candidates;
    SortDescends(queue, FocusKey);
    r := Some(Sort(queue, FocusKey));
    DescendingIsFocusOrder(r.value);
    forall f | f in r.value
      ensures f.outcome in outcomes && f.outcome.outcome.provider == p && f.outcome.outcome.owner == Some(v)
    {
      assert f in multiset(r.value);
      OwnedAreOwned(candidates, records, v, f);
      CandidateListed(outcomes, p, f.outcome);
    }
  }

  /** The window really is the newest outcomes of the provider. */
  lemma CandidatesAreNewest(outcomes: seq<OutcomeRecord>, p: int, o: OutcomeRecord)
    requires o in outcomes && o.outcome.provider == p && o !in Candidates(outcomes, p)
    ensures |Candidates(outcomes, p)| == 16
    ensures forall c | c in Candidates(outcomes, p) :: c.outcome.provider == p && c.outcome.observed >= o.outcome.observed
  {
    var key := (o: OutcomeRecord) => Key(o.outcome.observed, 0, 0);
    var newest := Sort(OfProvider(outcomes, p), key);
    SortDescends(OfProvider(outcomes, p), key);
    assert forall c :: c in newest <==> c in multiset(newest);
    assert o in newest;
    var at :| 0 <= at < |newest| && newest[at] == o;
    forall c | c in Candidates(outcomes, p) ensures c.outcome.provider == p && c.outcome.observed >= o.outcome.observed {
      assert c in multiset(newest);
      var k :| 0 <= k < |Candidates(outcomes, p)| && Candidates(outcomes, p)[k] == c;
      assert key(newest[k]).AtLeast(key(newest[at]));
    }
  }

  ghost predicate ListsOutcomes(k: Tools, outcomes: seq<OutcomeRecord>) {
    forall i | 0 <= i < |outcomes| :: outcomes[i].id in k.outcomes && outcomes[i].outcome == k.outcomes[outcomes[i].id]
  }

  ghost predicate ListsDecisions(k: Tools, records: seq<ContextRecord>) {
    && (forall i | 0 <= i < |records| :: records[i].id in k.admissions && records[i].evidence == k.admissions[records[i].id])
    && (forall i, m | 0 <= i < m < |records| :: records[i].id != records[m].id)
  }

  lemma NoDecisions(records: seq<ContextRecord>, id: int)
    requires forall i | 0 <= i < |records| :: records[i].id != id
    ensures Decisions(records, id) == []
  {
  }

  lemma {:induction false} DecisionsUnique(records: seq<ContextRecord>, id: int)
    requires forall i, m | 0 <= i < m < |records| :: records[i].id != records[m].id
    ensures |Decisions(records, id)| <= 1
  {
    if records != [] {
      var before := records[..|records| - 1];
      DecisionsUnique(before, id);
      if records[|records| - 1].id == id {
        NoDecisions(before, id);
      }
    }
  }

  /** The review queue of every provider and conversation is available after every run. */
  lemma QueueNeverBlocks(steps: seq<Step>, outcomes: seq<OutcomeRecord>, records: seq<ContextRecord>, p: int, v: int)
    requires ListsOutcomes(Folded(Run(steps)).tools, outcomes) && ListsDecisions(Folded(Run(steps)).tools, records)
    ensures forall o | o in Candidates(outcomes, p) :: Reviewable(o, records, v)
  {
    hide Legal, Run, Folded, Backed, TopInv, ProviderInv, GatesInv, EndsInv, MailInv, MemoryInv, StaffInv, SupervisionInv,
      LeaseInv, SingleAuthority, CarriageInv, WorkInv, Decisions;
    RunIndexed(steps);
    var s := Folded(Run(steps));
    forall o | o in Candidates(outcomes, p) ensures Reviewable(o, records, v) {
      DecisionsUnique(records, o.id);
      CandidateListed(outcomes, p, o);
      if |Decisions(records, o.id)| == 1 {
        var c := Decisions(records, o.id)[0];
        assert c in Decisions(records, o.id);
        assert EvidenceInv(s.tools, o.id, s.count);
      }
    }
  }

  lemma CandidateListed(outcomes: seq<OutcomeRecord>, p: int, o: OutcomeRecord)
    requires o in Candidates(outcomes, p)
    ensures o in outcomes && o.outcome.provider == p
  {
    var newest := Sort(OfProvider(outcomes, p), (o: OutcomeRecord) => Key(o.outcome.observed, 0, 0));
    assert o in multiset(newest);
  }
}
