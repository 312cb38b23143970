/** Incremental SSE framing and assistant-text reconstruction of browser/flight-recorder.user.js.

    Strings are sequences of UTF-16 code units, as in JavaScript. `JSON.parse` is a parameter of the
    model: it says what a frame's data means to the observer. */
module ProtocolStream {
  import opened Common

  type Unit = x: int | 0 <= x < 0x10000
  type Units = seq<Unit>

  const CR: Unit := 13
  const LF: Unit := 10

  /** The code units of an ASCII literal. */
  function Ascii(text: string): Units
    requires forall i | 0 <= i < |text| :: text[i] < '\U{80}'
  {
    seq(|text|, i requires 0 <= i < |text| => text[i] as int)
  }

  /** `replace(/\r\n/g, '\n')` */
  function CrLfToLf(text: Units): Units {
    if text == [] then []
    else if |text| > 1 && text[0] == CR && text[1] == LF then [LF] + CrLfToLf(text[2..])
    else [text[0]] + CrLfToLf(text[1..])
  }

  /** `indexOf('\n\n')` */
  function Boundary(text: Units): (r: Option<nat>)
    ensures r.Some? ==> r.value + 1 < |text| && text[r.value] == LF && text[r.value + 1] == LF
    ensures r.Some? ==> forall i | 0 <= i < r.value :: !(text[i] == LF && text[i + 1] == LF)
    ensures r.None? ==> forall i | 0 <= i < |text| - 1 :: !(text[i] == LF && text[i + 1] == LF)
  {
    if |text| < 2 then None
    else if text[0] == LF && text[1] == LF then Some(0)
    else
      match Boundary(text[1..])
      case None => assert forall i | 1 <= i < |text| :: text[i] == text[1..][i - 1]; None
      case Some(k) => assert forall i | 1 <= i < |text| :: text[i] == text[1..][i - 1]; Some(k + 1)
  }

  /** Every raw frame that is complete in the text, in order. */
  function RawFrames(text: Units): seq<Units>
    decreases |text|
  {
    match Boundary(text)
    case None => []
    case Some(k) => [text[..k]] + RawFrames(text[k + 2..])
  }

  /** What stays in the buffer. */
  function Remainder(text: Units): Units
    decreases |text|
  {
    match Boundary(text)
    case None => text
    case Some(k) => Remainder(text[k + 2..])
  }

  // ---- One frame

  predicate IsJsSpace(u: Unit) {
    9 <= u <= 13 || u == 32 || u == 0xa0 || u == 0x1680 || 0x2000 <= u <= 0x200a || u == 0x2028 || u == 0x2029
    || u == 0x202f || u == 0x205f || u == 0x3000 || u == 0xfeff
  }

  function TrimLeft(text: Units): Units {
    if text != [] && IsJsSpace(text[0]) then TrimLeft(text[1..]) else text
  }

  function TrimRight(text: Units): Units {
    if text != [] && IsJsSpace(text[|text| - 1]) then TrimRight(text[..|text| - 1]) else text
  }

  function Trim(text: Units): Units {
    TrimRight(TrimLeft(text))
  }

  /** `rawFrame.split('\n')` */
  function Lines(text: Units): (r: seq<Units>)
    ensures r != []
  {
    if text == [] then [[]]
    else
      var rest := Lines(text[1..]);
      if text[0] == LF then [[]] + rest else [[text[0]] + rest[0]] + rest[1..]
  }

  function JoinLines(lines: seq<Units>): Units {
    if lines == [] then [] else if |lines| == 1 then lines[0] else lines[0] + [LF] + JoinLines(lines[1..])
  }

  const COLON: Unit := 58
  const SPACE: Unit := 32

  datatype Frame = Frame(event: Option<Units>, data: Units)

  /** The last event name and the data lines of a frame. */
  datatype Fields = Fields(event: Option<Units>, data: seq<Units>)

  function ReadField(fields: Fields, line: Units): Fields {
    if line == [] || line[0] == COLON then fields
    else if Ascii("event:") <= line then fields.(event := Some(Trim(line[6..])))
    else if Ascii("data:") <= line then
      var value := line[5..];
      fields.(data := fields.data + [if value != [] && value[0] == SPACE then value[1..] else value])
    else fields
  }

  function ReadFields(lines: seq<Units>): Fields {
    if lines == [] then Fields(None, [])
    else ReadField(ReadFields(lines[..|lines| - 1]), lines[|lines| - 1])
  }

  /** Blank frames and frames without data are skipped. */
  function ParseFrame(raw: Units): Option<Frame> {
    if Trim(raw) == [] then None
    else
      var fields := ReadFields(Lines(raw));
      if fields.data == [] then None else Some(Frame(fields.event, JoinLines(fields.data)))
  }

  function Frames(raws: seq<Units>): seq<Frame> {
    if raws == [] then []
    else Frames(raws[..|raws| - 1])
         + match ParseFrame(raws[|raws| - 1]) case None => [] case Some(f) => [f]
  }

  // ---- The observer

  /** What `JSON.parse` and the shape tests make of a frame's data. */
  datatype Json = Unparsable | MessageEnvelope(id: Units, text: Units) | AppendText(text: Units) | Other

  datatype Meaning = Finished | Replaces(id: Units, text: Units) | Appends(text: Units) | Ignored

  function MeaningOf(f: Frame, json: Units -> Json): Meaning {
    if f.data == Ascii("[DONE]") then Finished
    else
      match json(f.data)
      case Unparsable => Ignored
      case MessageEnvelope(id, text) => if f.event == Some(Ascii("delta")) && id != [] then Replaces(id, text) else Ignored
      case AppendText(text) => if f.event == Some(Ascii("delta")) then Appends(text) else Ignored
      case Other => Ignored
  }

  datatype Message = Message(id: Units, text: Units)

  /** The assistant write-ahead log entry. */
  datatype Wal = Wal(observedId: Units, text: Units, originalChars: nat, truncatedPrefix: bool)

  function WalOf(m: Message): Wal {
    var truncated := |m.text| > 500000;
    Wal(m.id, if truncated then m.text[|m.text| - 500000..] else m.text, |m.text|, truncated)
  }

  datatype Observer = Observer(index: nat, done: bool, assistant: Option<Message>, wal: Option<Wal>)

  const FRESH := Observer(0, false, None, None)

  /** `observeProtocolSseFrame` */
  function Observe(o: Observer, f: Frame, json: Units -> Json): Observer {
    var next := o.(index := o.index + 1);
    match MeaningOf(f, json)
    case Finished => next.(done := true)
    case Ignored => next
    case Replaces(id, text) => next.(assistant := Some(Message(id, text)), wal := Some(WalOf(Message(id, text))))
    case Appends(text) =>
      if o.assistant.None? then next
      else
        var m := Message(o.assistant.value.id, o.assistant.value.text + text);
        next.(assistant := Some(m), wal := Some(WalOf(m)))
  }

  function ObserveAll(o: Observer, frames: seq<Frame>, json: Units -> Json): Observer {
    if frames == [] then o else Observe(ObserveAll(o, frames[..|frames| - 1], json), frames[|frames| - 1], json)
  }

  lemma {:induction false} ObserveAllAppends(o: Observer, a: seq<Frame>, b: seq<Frame>, json: Units -> Json)
    ensures ObserveAll(o, a + b, json) == ObserveAll(ObserveAll(o, a, json), b, json)
  {
    hide Observe;
    if b == [] {
      assert a + b == a;
    } else {
      ObserveAllAppends(o, a, b[..|b| - 1], json);
      assert (a + b)[..|a + b| - 1] == a + b[..|b| - 1];
    }
  }

  lemma {:induction false} FramesAppend(a: seq<Units>, b: seq<Units>)
    ensures Frames(a + b) == Frames(a) + Frames(b)
  {
    hide ParseFrame;
    if b == [] {
      assert a + b == a;
    } else {
      FramesAppend(a, b[..|b| - 1]);
      assert (a + b)[..|a + b| - 1] == a + b[..|b| - 1];
    }
  }

  class Stream {
    const json: Units -> Json
    var buffer: Units
    var observer: Observer

    constructor (json: Units -> Json)
      ensures this.json == json && buffer == [] && observer == FRESH
    {
      this.json, buffer, observer := json, [], FRESH;
    }

    /** `feedProtocolSseText` */
    method Feed(text: Units)
      modifies this
      ensures buffer == Remainder(CrLfToLf(old(buffer) + text))
      ensures observer == ObserveAll(old(observer), Frames(RawFrames(CrLfToLf(old(buffer) + text))), json)
    {
      hide CrLfToLf, ParseFrame, Observe, RawFrames, Remainder, Frames, ObserveAll;
      buffer := CrLfToLf(buffer + text);
      ghost var whole := buffer;
      ghost var taken: seq<Units> := [];
      NothingTaken(observer, json);
      while true
        invariant RawFrames(whole) == taken + RawFrames(buffer) && Remainder(whole) == Remainder(buffer)
        invariant observer == ObserveAll(old(observer), Frames(taken), json)
        decreases |buffer|
      {
        NextFrame(buffer);
        var boundary := Boundary(buffer);
        if boundary.None? {
          assert taken + [] == taken;
          break;
        }
        var raw := buffer[..boundary.value];
        assert taken + RawFrames(buffer) == (taken + [raw]) + RawFrames(buffer[boundary.value + 2..]);
        TakeFrame(old(observer), taken, raw, json);
        taken := taken + [raw];
        buffer := buffer[boundary.value + 2..];
        var frame := ParseFrame(raw);
        if frame.Some? {
          observer := Observe(observer, frame.value, json);
        }
      }
    }
  }

  lemma NothingTaken(o: Observer, json: Units -> Json)
    ensures ObserveAll(o, Frames([]), json) == o
  {
  }

  lemma NextFrame(text: Units)
    ensures
      match Boundary(text)
      case None => RawFrames(text) == [] && Remainder(text) == text
      case Some(k) => RawFrames(text) == [text[..k]] + RawFrames(text[k + 2..]) && Remainder(text) == Remainder(text[k + 2..])
  {
  }

  lemma TakeFrame(o: Observer, taken: seq<Units>, raw: Units, json: Units -> Json)
    ensures
      ObserveAll(o, Frames(taken + [raw]), json)
      == match ParseFrame(raw)
         case None => ObserveAll(o, Frames(taken), json)
         case Some(f) => Observe(ObserveAll(o, Frames(taken), json), f, json)
  {
    hide ParseFrame, Observe;
    FramesAppend(taken, [raw]);
    OneFrame(raw);
    if ParseFrame(raw).Some? {
      ObserveAllAppends(o, Frames(taken), [ParseFrame(raw).value], json);
      ObserveOne(ObserveAll(o, Frames(taken), json), ParseFrame(raw).value, json);
    } else {
      assert Frames(taken) + [] == Frames(taken);
    }
  }

  lemma OneFrame(raw: Units)
    ensures Frames([raw]) == match ParseFrame(raw) case None => [] case Some(f) => [f]
  {
    hide ParseFrame;
    assert [raw][..0] == [];
  }

  lemma ObserveOne(o: Observer, f: Frame, json: Units -> Json)
    ensures ObserveAll(o, [f], json) == Observe(o, f, json)
  {
    hide Observe;
    assert [f][..0] == [];
  }

  // ---- Chunking

  /** The standard's event streams contain no CR CR LF when their line ends are LF or CR LF. */
  predicate NoCrCrLf(text: Units) {
    forall i | 0 <= i < |text| - 2 :: !(text[i] == CR && text[i + 1] == CR && text[i + 2] == LF)
  }

  predicate NoCrLf(text: Units) {
    forall i | 0 <= i < |text| - 1 :: !(text[i] == CR && text[i + 1] == LF)
  }

  lemma {:induction false} NormalStays(text: Units)
    requires NoCrLf(text)
    ensures CrLfToLf(text) == text
  {
    if text != [] {
      forall i | 0 <= i < |text[1..]| - 1 ensures !(text[1..][i] == CR && text[1..][i + 1] == LF) {
        assert text[1..][i] == text[i + 1] && text[1..][i + 1] == text[i + 2];
      }
      NormalStays(text[1..]);
    }
  }

  lemma {:induction false} FirstUnit(text: Units)
    requires text != []
    ensures CrLfToLf(text) != []
    ensures CrLfToLf(text)[0] == LF ==> text[0] == LF || (|text| > 1 && text[0] == CR && text[1] == LF)
  {
  }

  /** One pass leaves no CR LF, unless the text had a CR CR LF. */
  lemma {:induction false} NormalizedOnce(text: Units)
    requires NoCrCrLf(text)
    ensures NoCrLf(CrLfToLf(text))
  {
    if text != [] {
      var n := if |text| > 1 && text[0] == CR && text[1] == LF then 2 else 1;
      var rest := text[n..];
      forall i | 0 <= i < |rest| - 2 ensures !(rest[i] == CR && rest[i + 1] == CR && rest[i + 2] == LF) {
        assert rest[i] == text[i + n] && rest[i + 1] == text[i + n + 1] && rest[i + 2] == text[i + n + 2];
      }
      NormalizedOnce(rest);
      if n == 1 && rest != [] {
        FirstUnit(rest);
        assert rest[0] == text[1] && (|rest| > 1 ==> rest[1] == text[2]);
      }
      var once := CrLfToLf(text);
      forall i | 0 <= i < |once| - 1 ensures !(once[i] == CR && once[i + 1] == LF) {
        if i > 0 {
          assert once[i] == CrLfToLf(rest)[i - 1] && once[i + 1] == CrLfToLf(rest)[i];
        }
      }
    }
  }

  /** Normalising what is already normalised together with more text is normalising it all. */
  predicate Pair(text: Units) {
    |text| > 1 && text[0] == CR && text[1] == LF
  }

  lemma Unfold(text: Units)
    requires text != []
    ensures CrLfToLf(text) == if Pair(text) then [LF] + CrLfToLf(text[2..]) else [text[0]] + CrLfToLf(text[1..])
  {
  }

  lemma NothingNormalized()
    ensures CrLfToLf([]) == []
  {
  }

  /** A CR at the end of one chunk and an LF at the start of the next form one line end. */
  lemma PairAcross(a: Units, b: Units)
    requires a != [] && !Pair(a) && Pair(a + b)
    ensures CrLfToLf(a) == a && |a| == 1
  {
  }

  lemma PairStep(a: Units, b: Units)
    requires Pair(a) && CrLfToLf(CrLfToLf(a[2..]) + b) == CrLfToLf(a[2..] + b)
    ensures CrLfToLf(CrLfToLf(a) + b) == CrLfToLf(a + b)
  {
    hide CrLfToLf;
    var all, once := a + b, CrLfToLf(a) + b;
    Unfold(a);
    Unfold(all);
    Unfold(once);
    assert all[2..] == a[2..] + b && once[1..] == CrLfToLf(a[2..]) + b;
  }

  lemma SingleStep(a: Units, b: Units)
    requires a != [] && !Pair(a) && !Pair(a + b) && !Pair(CrLfToLf(a) + b)
    requires CrLfToLf(CrLfToLf(a[1..]) + b) == CrLfToLf(a[1..] + b)
    ensures CrLfToLf(CrLfToLf(a) + b) == CrLfToLf(a + b)
  {
    hide CrLfToLf, Pair;
    var all, once := a + b, CrLfToLf(a) + b;
    Unfold(a);
    Unfold(all);
    Unfold(once);
    assert all[1..] == a[1..] + b;
    assert CrLfToLf(a) == [a[0]] + CrLfToLf(a[1..]);
    assert once == [a[0]] + (CrLfToLf(a[1..]) + b);
    assert once[1..] == CrLfToLf(a[1..]) + b;
  }

  lemma {:induction false} NormalizeAppends(a: Units, b: Units)
    requires NoCrCrLf(a + b)
    ensures CrLfToLf(CrLfToLf(a) + b) == CrLfToLf(a + b)
  {
    hide CrLfToLf, NoCrCrLf;
    var all, once := a + b, CrLfToLf(a) + b;
    if a == [] {
      NothingNormalized();
      assert all == b && once == b;
    } else if Pair(a) {
      assert all[2..] == a[2..] + b;
      ShorterHasNone(all, 2);
      NormalizeAppends(a[2..], b);
      PairStep(a, b);
    } else {
      assert all[1..] == a[1..] + b;
      ShorterHasNone(all, 1);
      NormalizeAppends(a[1..], b);
      SameSecond(a, b);
      if Pair(all) {
        PairAcross(a, b);
      } else {
        SingleStep(a, b);
      }
    }
  }

  lemma ShorterHasNone(text: Units, n: nat)
    requires NoCrCrLf(text) && n <= |text|
    ensures NoCrCrLf(text[n..])
  {
    var rest := text[n..];
    forall i | 0 <= i < |rest| - 2 ensures !(rest[i] == CR && rest[i + 1] == CR && rest[i + 2] == LF) {
      assert rest[i] == text[i + n] && rest[i + 1] == text[i + n + 1] && rest[i + 2] == text[i + n + 2];
    }
  }

  /** Behind a CR that starts no CR LF, normalising does not create one. */
  lemma SameSecond(a: Units, b: Units)
    requires a != [] && NoCrCrLf(a + b) && !Pair(a)
    ensures Pair(CrLfToLf(a) + b) <==> Pair(a + b)
  {
    var once, all := CrLfToLf(a) + b, a + b;
    if |a| > 1 {
      FirstUnit(a[1..]);
      assert once[1] == CrLfToLf(a[1..])[0];
      assert |all| > 2 ==> !(all[0] == CR && all[1] == CR && all[2] == LF);
    } else {
      assert a[1..] == [];
      assert CrLfToLf(a) == a;
    }
  }

  // Draining

  lemma {:induction false} FirstBoundary(text: Units, k: nat)
    requires k + 1 < |text| && text[k] == LF && text[k + 1] == LF
    requires forall i | 0 <= i < k :: !(text[i] == LF && text[i + 1] == LF)
    ensures Boundary(text) == Some(k)
  {
    var found := Boundary(text);
    assert found.Some?;
  }

  /** What draining consumes: every complete frame with its blank line. */
  function Taken(text: Units): Units
    decreases |text|
  {
    match Boundary(text)
    case None => []
    case Some(k) => text[..k + 2] + Taken(text[k + 2..])
  }

  lemma NextTaken(text: Units)
    ensures Taken(text) == match Boundary(text) case None => [] case Some(k) => text[..k + 2] + Taken(text[k + 2..])
  {
  }

  lemma {:induction false} TakenSplits(text: Units)
    ensures text == Taken(text) + Remainder(text) && (Taken(text) == [] || Taken(text)[|Taken(text)| - 1] == LF)
    decreases |text|
  {
    hide Taken, Remainder;
    NextTaken(text);
    NextFrame(text);
    match Boundary(text)
    case None => assert text == [] + text;
    case Some(k) =>
      var first, rest := text[..k + 2], text[k + 2..];
      TakenSplits(rest);
      assert text == first + rest;
      assert first + (Taken(rest) + Remainder(rest)) == (first + Taken(rest)) + Remainder(rest);
      assert first[|first| - 1] == text[k + 1];
  }

  /** The consumed part yields the same frames whatever follows it, and nothing of it remains. */
  lemma {:induction false} TakenDrains(text: Units, more: Units)
    ensures RawFrames(Taken(text) + more) == RawFrames(text) + RawFrames(more)
    ensures Remainder(Taken(text) + more) == Remainder(more)
    decreases |text|
  {
    hide Taken, Remainder, RawFrames;
    NextTaken(text);
    NextFrame(text);
    match Boundary(text)
    case None =>
      assert Taken(text) + more == more && [] + RawFrames(more) == RawFrames(more);
    case Some(k) =>
      var all := Taken(text) + more;
      assert all == text[..k + 2] + (Taken(text[k + 2..]) + more);
      FirstBoundary(all, k);
      assert all[..k] == text[..k] && all[k + 2..] == Taken(text[k + 2..]) + more;
      TakenDrains(text[k + 2..], more);
      NextFrame(all);
  }

  /** Behind a line feed, normalising the rest is normalising the whole. */
  lemma {:induction false} NormalizeBehind(taken: Units, rest: Units)
    requires NoCrLf(taken) && (taken == [] || taken[|taken| - 1] == LF)
    ensures CrLfToLf(taken + rest) == taken + CrLfToLf(rest)
  {
    hide CrLfToLf;
    if taken == [] {
      assert taken + rest == rest && taken + CrLfToLf(rest) == CrLfToLf(rest);
    } else {
      var all := taken + rest;
      Unfold(all);
      assert all[1..] == taken[1..] + rest && !Pair(all);
      forall i | 0 <= i < |taken[1..]| - 1 ensures !(taken[1..][i] == CR && taken[1..][i + 1] == LF) {
        assert taken[1..][i] == taken[i + 1] && taken[1..][i + 1] == taken[i + 2];
      }
      NormalizeBehind(taken[1..], rest);
      assert [taken[0]] + (taken[1..] + CrLfToLf(rest)) == taken + CrLfToLf(rest);
    }
  }

  function Concat(chunks: seq<Units>): Units {
    if chunks == [] then [] else Concat(chunks[..|chunks| - 1]) + chunks[|chunks| - 1]
  }

  /** The buffer and observer after feeding the chunks one by one. */
  function Fed(chunks: seq<Units>, json: Units -> Json): (Units, Observer) {
    if chunks == [] then ([], FRESH)
    else
      var (buffer, observer) := Fed(chunks[..|chunks| - 1], json);
      var whole := CrLfToLf(buffer + chunks[|chunks| - 1]);
      (Remainder(whole), ObserveAll(observer, Frames(RawFrames(whole)), json))
  }

  /** The reading loop: one feed per decoded chunk, into a fresh stream state. */
  method Capture(chunks: seq<Units>, json: Units -> Json) returns (buffer: Units, observer: Observer)
    ensures (buffer, observer) == Fed(chunks, json)
  {
    hide CrLfToLf, RawFrames, Remainder, Frames, ObserveAll;
    var stream := new Stream(json);
    var i := 0;
    while i < |chunks|
      invariant 0 <= i <= |chunks| && stream.json == json
      invariant (stream.buffer, stream.observer) == Fed(chunks[..i], json)
    {
      stream.Feed(chunks[i]);
      assert chunks[..i + 1][..i] == chunks[..i];
      i := i + 1;
    }
    assert chunks[..i] == chunks;
    buffer, observer := stream.buffer, stream.observer;
  }

  lemma PrefixHasNone(a: Units, b: Units)
    requires NoCrCrLf(a + b)
    ensures NoCrCrLf(a)
  {
    forall i | 0 <= i < |a| - 2 ensures !(a[i] == CR && a[i + 1] == CR && a[i + 2] == LF) {
      assert a[i] == (a + b)[i] && a[i + 1] == (a + b)[i + 1] && a[i + 2] == (a + b)[i + 2];
    }
  }

  lemma PartHasNone(taken: Units, rest: Units)
    requires NoCrLf(taken + rest)
    ensures NoCrLf(taken)
  {
    forall i | 0 <= i < |taken| - 1 ensures !(taken[i] == CR && taken[i + 1] == LF) {
      assert taken[i] == (taken + rest)[i] && taken[i + 1] == (taken + rest)[i + 1];
    }
  }

  /** Feeding one more chunk to the remainder continues the drain of the whole text. */
  lemma {:induction false} FeedContinues(text: Units, chunk: Units)
    requires NoCrCrLf(text + chunk)
    ensures
      var before, now := CrLfToLf(text), CrLfToLf(Remainder(CrLfToLf(text)) + chunk);
      && Remainder(CrLfToLf(text + chunk)) == Remainder(now)
      && RawFrames(CrLfToLf(text + chunk)) == RawFrames(before) + RawFrames(now)
  {
    hide CrLfToLf, NoCrCrLf, NoCrLf, RawFrames;
    var before := CrLfToLf(text);
    PrefixHasNone(text, chunk);
    NormalizedOnce(text);
    NormalizeAppends(text, chunk);
    TakenSplits(before);
    var taken := Taken(before);
    PartHasNone(taken, Remainder(before));
    assert before + chunk == taken + (Remainder(before) + chunk);
    NormalizeBehind(taken, Remainder(before) + chunk);
    TakenDrains(before, CrLfToLf(Remainder(before) + chunk));
  }

  /** Chunking does not matter: for a stream without CR CR LF, feeding any split of it ends with the
      buffer and the observer that feeding it whole gives, after the same frames in the same order. */
  lemma {:induction false} ChunkingIsIrrelevant(chunks: seq<Units>, json: Units -> Json)
    requires NoCrCrLf(Concat(chunks))
    ensures
      var whole := CrLfToLf(Concat(chunks));
      Fed(chunks, json) == (Remainder(whole), ObserveAll(FRESH, Frames(RawFrames(whole)), json))
  {
    hide CrLfToLf, NoCrCrLf, RawFrames, Frames, ObserveAll, Remainder;
    if chunks == [] {
      NothingNormalized();
      NothingTaken(FRESH, json);
      NextFrame([]);
    } else {
      var before, chunk := Concat(chunks[..|chunks| - 1]), chunks[|chunks| - 1];
      PrefixHasNone(before, chunk);
      ChunkingIsIrrelevant(chunks[..|chunks| - 1], json);
      FeedContinues(before, chunk);
      var now := CrLfToLf(Remainder(CrLfToLf(before)) + chunk);
      FramesAppend(RawFrames(CrLfToLf(before)), RawFrames(now));
      ObserveAllAppends(FRESH, Frames(RawFrames(CrLfToLf(before))), Frames(RawFrames(now)), json);
    }
  }

  // With a CR CR LF the split does matter

  /** The raw frames and the buffer after feeding the chunks one by one. */
  function FedRaw(chunks: seq<Units>): (seq<Units>, Units) {
    if chunks == [] then ([], [])
    else
      var (raws, buffer) := FedRaw(chunks[..|chunks| - 1]);
      var whole := CrLfToLf(buffer + chunks[|chunks| - 1]);
      (raws + RawFrames(whole), Remainder(whole))
  }

  /** The code units that raw frames, with their blank lines, and a remainder stand for. */
  function Size(raws: seq<Units>): nat {
    if raws == [] then 0 else Size(raws[..|raws| - 1]) + |raws[|raws| - 1]| + 2
  }

  lemma {:induction false} SizeAppends(a: seq<Units>, b: seq<Units>)
    ensures Size(a + b) == Size(a) + Size(b)
  {
    if b == [] {
      assert a + b == a;
    } else {
      SizeAppends(a, b[..|b| - 1]);
      assert (a + b)[..|a + b| - 1] == a + b[..|b| - 1];
    }
  }

  /** Draining loses nothing. */
  lemma {:induction false} DrainKeepsSize(text: Units)
    ensures Size(RawFrames(text)) + |Remainder(text)| == |text|
    decreases |text|
  {
    hide RawFrames, Remainder;
    NextFrame(text);
    match Boundary(text)
    case None => assert Size([]) == 0;
    case Some(k) =>
      DrainKeepsSize(text[k + 2..]);
      SizeAppends([text[..k]], RawFrames(text[k + 2..]));
      assert [text[..k]][..0] == [];
  }

  /** Normalising distributes where no CR LF is cut. */
  lemma {:induction false} NormalizeDistributes(a: Units, b: Units)
    requires a == [] || b == [] || !(a[|a| - 1] == CR && b[0] == LF)
    ensures CrLfToLf(a + b) == CrLfToLf(a) + CrLfToLf(b)
  {
    hide CrLfToLf;
    NothingNormalized();
    var all := a + b;
    if a == [] {
      assert all == b && [] + CrLfToLf(b) == CrLfToLf(b);
    } else if b == [] {
      assert all == a && CrLfToLf(a) + [] == CrLfToLf(a);
    } else {
      Unfold(a);
      Unfold(all);
      var n := if Pair(a) then 2 else 1;
      assert Pair(all) <==> Pair(a);
      assert all[n..] == a[n..] + b;
      NormalizeDistributes(a[n..], b);
    }
  }

  lemma {:induction false} NormalizeShrinks(text: Units)
    ensures |CrLfToLf(text)| <= |text|
  {
    if text != [] {
      NormalizeShrinks(text[1..]);
      if |text| > 1 { NormalizeShrinks(text[2..]); }
    }
  }

  /** A text that ends in CR LF becomes shorter. */
  lemma EndShrinks(text: Units)
    ensures CrLfToLf(text + [CR, LF]) == CrLfToLf(text) + [LF] && |CrLfToLf(text + [CR, LF])| < |text| + 2
  {
    NormalizeDistributes(text, [CR, LF]);
    OnePass();
    NormalizeShrinks(text);
  }

  lemma OnePass()
    ensures CrLfToLf([CR, LF]) == [LF] && CrLfToLf([CR]) == [CR]
  {
    hide CrLfToLf;
    assert [CR, LF][2..] == [] && [CR][1..] == [];
    Unfold([CR, LF]);
    Unfold([CR]);
    NothingNormalized();
  }

  lemma {:induction false} TakenEnds(text: Units)
    ensures Taken(text) == [] || (|Taken(text)| > 1 && Taken(text)[|Taken(text)| - 2] == LF)
    decreases |text|
  {
    hide Taken;
    NextTaken(text);
    match Boundary(text)
    case None =>
    case Some(k) => TakenEnds(text[k + 2..]);
  }

  /** What remains of a text that ends in CR LF ends in it too. */
  lemma RemainderEnds(text: Units)
    requires |text| > 1 && text[|text| - 2] == CR && text[|text| - 1] == LF
    ensures |Remainder(text)| > 1 && Remainder(text) == Remainder(text)[..|Remainder(text)| - 2] + [CR, LF]
  {
    hide Taken, Remainder;
    TakenSplits(text);
    TakenEnds(text);
    var taken, rest := Taken(text), Remainder(text);
    assert |rest| > 1;
    assert rest[|rest| - 2] == text[|text| - 2] && rest[|rest| - 1] == text[|text| - 1];
  }

  /** Normalising up to the end of a CR CR LF leaves its CR LF behind. */
  lemma CrCrLfLeavesCrLf(text: Units)
    ensures CrLfToLf(text + [CR, CR, LF]) == CrLfToLf(text) + [CR, LF]
  {
    hide CrLfToLf;
    OnePass();
    NormalizeDistributes(text, [CR]);
    NormalizeDistributes(text + [CR], [CR, LF]);
    assert text + [CR, CR, LF] == (text + [CR]) + [CR, LF];
    assert CrLfToLf(text) + [CR] + [LF] == CrLfToLf(text) + [CR, LF];
  }

  lemma FedTwo(a: Units, b: Units)
    ensures
      var first := CrLfToLf(a);
      var second := CrLfToLf(Remainder(first) + b);
      FedRaw([a, b]) == (RawFrames(first) + RawFrames(second), Remainder(second))
  {
    hide CrLfToLf, RawFrames, Remainder;
    var two := [a, b];
    assert two[..1] == [a] && [a][..0] == [] && [] + a == a;
    assert FedRaw([a]) == ([] + RawFrames(CrLfToLf([] + a)), Remainder(CrLfToLf([] + a)));
    assert [] + RawFrames(CrLfToLf(a)) == RawFrames(CrLfToLf(a));
  }

  /** Cutting behind a CR CR LF normalises its CR LF a second time, so something is lost. */
  lemma CrCrLfSplitDiffers(before: Units, after: Units)
    ensures
      var whole := CrLfToLf(before + [CR, CR, LF] + after);
      FedRaw([before + [CR, CR, LF], after]) != (RawFrames(whole), Remainder(whole))
  {
    hide CrLfToLf, RawFrames, Remainder, FedRaw;
    var a := before + [CR, CR, LF];
    var first := CrLfToLf(a);
    var rest := Remainder(first);
    var second := CrLfToLf(rest + after);
    CrCrLfLeavesCrLf(before);
    RemainderEnds(first);
    EndShrinks(rest[..|rest| - 2]);
    NormalizeDistributes(rest, after);
    NormalizeDistributes(a, after);
    FedTwo(a, after);
    SizeAppends(RawFrames(first), RawFrames(second));
    DrainKeepsSize(first);
    DrainKeepsSize(second);
    DrainKeepsSize(CrLfToLf(a + after));
  }

  lemma {:induction false} RawChunking(chunks: seq<Units>)
    requires NoCrCrLf(Concat(chunks))
    ensures FedRaw(chunks) == (RawFrames(CrLfToLf(Concat(chunks))), Remainder(CrLfToLf(Concat(chunks))))
  {
    hide CrLfToLf, NoCrCrLf, RawFrames, Remainder;
    if chunks == [] {
      NothingNormalized();
      NextFrame([]);
    } else {
      var before, chunk := Concat(chunks[..|chunks| - 1]), chunks[|chunks| - 1];
      PrefixHasNone(before, chunk);
      RawChunking(chunks[..|chunks| - 1]);
      FeedContinues(before, chunk);
    }
  }

  /** Framing is independent of chunking exactly for the streams without CR CR LF. */
  lemma ChunkingExactly(text: Units)
    ensures NoCrCrLf(text) <==>
      forall chunks | Concat(chunks) == text :: FedRaw(chunks) == (RawFrames(CrLfToLf(text)), Remainder(CrLfToLf(text)))
  {
    hide CrLfToLf, RawFrames, Remainder, FedRaw, Concat;
    if NoCrCrLf(text) {
      forall chunks | Concat(chunks) == text
        ensures FedRaw(chunks) == (RawFrames(CrLfToLf(text)), Remainder(CrLfToLf(text)))
      {
        RawChunking(chunks);
      }
    } else {
      var i :| 0 <= i < |text| - 2 && text[i] == CR && text[i + 1] == CR && text[i + 2] == LF;
      var before, after := text[..i], text[i + 3..];
      assert text == before + [CR, CR, LF] + after;
      CrCrLfSplitDiffers(before, after);
      ConcatTwo(before + [CR, CR, LF], after);
    }
  }

  lemma ConcatTwo(a: Units, b: Units)
    ensures Concat([a, b]) == a + b
  {
    assert [a, b][..1] == [a] && [a][..0] == [];
    assert Concat([a]) == [] + a;
  }

  // ---- The assistant text

  /** The message text since the last replacement, read off the frames. */
  function Accumulated(frames: seq<Frame>, json: Units -> Json): Option<Message> {
    if frames == [] then None
    else
      var before := Accumulated(frames[..|frames| - 1], json);
      match MeaningOf(frames[|frames| - 1], json)
      case Replaces(id, text) => Some(Message(id, text))
      case Appends(text) => if before.None? then None else Some(before.value.(text := before.value.text + text))
      case _ => before
  }

  /** After every frame the log holds the last 500000 units of the initial text plus all appends since
      the last replacement, with the true length, for exactly the streams that have a message. */
  lemma {:induction false} WalHoldsTail(frames: seq<Frame>, json: Units -> Json)
    ensures
      var o, m := ObserveAll(FRESH, frames, json), Accumulated(frames, json);
      && o.index == |frames| && o.assistant == m && (o.wal.Some? <==> m.Some?)
      && (m.Some? ==>
            && o.wal.value.observedId == m.value.id && o.wal.value.originalChars == |m.value.text|
            && (o.wal.value.truncatedPrefix <==> |m.value.text| > 500000)
            && |o.wal.value.text| == Min(|m.value.text|, 500000)
            && o.wal.value.text == m.value.text[|m.value.text| - |o.wal.value.text|..])
  {
    hide MeaningOf;
    if frames != [] {
      WalHoldsTail(frames[..|frames| - 1], json);
    }
  }
}
