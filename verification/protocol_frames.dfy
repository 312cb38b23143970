/** What the frames of an event stream say: writing lines in the forms of section 9.2.6 of the HTML Living
    Standard and reading them back through browser/flight-recorder.user.js. */
module ProtocolFrames {
  import opened Common
  import opened ProtocolStream

  // ---- Writing

  /** An event name padded with spaces, a data line with or without its optional space, or a line that is
      a comment or an unknown field. */
  datatype Line =
    | EventLine(before: Units, name: Units, after: Units)
    | DataLine(spaced: bool, data: Units)
    | OtherLine(text: Units)

  function Text(line: Line): Units {
    match line
    case EventLine(before, name, after) => Ascii("event:") + before + name + after
    case DataLine(spaced, data) => Ascii("data:") + (if spaced then [SPACE] else []) + data
    case OtherLine(text) => text
  }

  predicate AllSpaces(text: Units) {
    forall i | 0 <= i < |text| :: IsJsSpace(text[i])
  }

  predicate Trimmed(text: Units) {
    text != [] ==> !IsJsSpace(text[0]) && !IsJsSpace(text[|text| - 1])
  }

  /** No line end inside, and each form is what it says it is. */
  predicate Proper(line: Line) {
    && LF !in Text(line) && CR !in Text(line)
    && match line
       case EventLine(before, name, after) => AllSpaces(before) && Trimmed(name) && AllSpaces(after)
       case DataLine(spaced, data) => spaced || data == [] || data[0] != SPACE
       case OtherLine(text) =>
         text != [] && (text[0] == COLON || !(Ascii("event:") <= text || Ascii("data:") <= text))
  }

  predicate ProperFrame(lines: seq<Line>) {
    lines != [] && forall line | line in lines :: Proper(line)
  }

  function Texts(lines: seq<Line>): seq<Units> {
    if lines == [] then [] else Texts(lines[..|lines| - 1]) + [Text(lines[|lines| - 1])]
  }

  /** The last event name, if any line gives one. */
  function EventOf(lines: seq<Line>): Option<Units> {
    if lines == [] then None
    else if lines[|lines| - 1].EventLine? then Some(lines[|lines| - 1].name)
    else EventOf(lines[..|lines| - 1])
  }

  /** The data lines in order. */
  function DataOf(lines: seq<Line>): seq<Units> {
    if lines == [] then []
    else DataOf(lines[..|lines| - 1]) + if lines[|lines| - 1].DataLine? then [lines[|lines| - 1].data] else []
  }

  // ---- Reading one line

  lemma AsciiParts()
    ensures Ascii("event:") == [101, 118, 101, 110, 116, 58]
    ensures Ascii("data:") == [100, 97, 116, 97, 58]
  {
  }

  lemma {:induction false} LeftSpacesTrimmed(before: Units, rest: Units)
    requires AllSpaces(before) && (rest == [] || !IsJsSpace(rest[0]))
    ensures TrimLeft(before + rest) == rest
  {
    if before == [] {
      assert before + rest == rest;
    } else {
      assert (before + rest)[1..] == before[1..] + rest;
      LeftSpacesTrimmed(before[1..], rest);
    }
  }

  lemma {:induction false} RightSpacesTrimmed(rest: Units, after: Units)
    requires AllSpaces(after) && (rest == [] || !IsJsSpace(rest[|rest| - 1]))
    ensures TrimRight(rest + after) == rest
  {
    if after == [] {
      assert rest + after == rest;
    } else {
      assert (rest + after)[..|rest + after| - 1] == rest + after[..|after| - 1];
      RightSpacesTrimmed(rest, after[..|after| - 1]);
    }
  }

  lemma PaddingTrimmed(before: Units, name: Units, after: Units)
    requires AllSpaces(before) && Trimmed(name) && AllSpaces(after)
    ensures Trim(before + name + after) == name
  {
    if name == [] {
      assert before + name + after == (before + after) + [];
      LeftSpacesTrimmed(before + after, []);
    } else {
      assert before + name + after == before + (name + after);
      LeftSpacesTrimmed(before, name + after);
      RightSpacesTrimmed(name, after);
    }
  }

  /** Each form of line is read as what it says; comments and unknown fields change nothing. */
  lemma LineReads(fields: Fields, line: Line)
    requires Proper(line)
    ensures
      ReadField(fields, Text(line)) ==
      match line
      case EventLine(_, name, _) => fields.(event := Some(name))
      case DataLine(_, data) => fields.(data := fields.data + [data])
      case OtherLine(_) => fields
  {
    hide Trim;
    AsciiParts();
    match line
    case EventLine(before, name, after) =>
      PaddingTrimmed(before, name, after);
      assert Text(line)[6..] == before + name + after;
    case DataLine(spaced, data) =>
      var value := Text(line)[5..];
      assert value == (if spaced then [SPACE] else []) + data;
      assert spaced ==> value[1..] == data;
    case OtherLine(_) =>
  }

  lemma {:induction false} LinesRead(lines: seq<Line>)
    requires forall line | line in lines :: Proper(line)
    ensures ReadFields(Texts(lines)) == Fields(EventOf(lines), DataOf(lines))
  {
    hide Proper, ReadField;
    if lines != [] {
      var front, last := lines[..|lines| - 1], lines[|lines| - 1];
      LinesRead(front);
      assert last in lines;
      LineReads(Fields(EventOf(front), DataOf(front)), last);
      assert Texts(lines)[..|Texts(lines)| - 1] == Texts(front);
    }
  }

  // ---- Reading one frame

  lemma {:induction false} LineSplits(line: Units, rest: Units)
    requires LF !in line
    ensures Lines(line) == [line] && Lines(line + [LF] + rest) == [line] + Lines(rest)
  {
    var whole := line + [LF] + rest;
    if line == [] {
      assert whole[1..] == rest;
    } else {
      assert whole[1..] == line[1..] + [LF] + rest && line[0] in line && forall u | u in line[1..] :: u in line;
      LineSplits(line[1..], rest);
      assert [line[0]] + line[1..] == line;
    }
  }

  lemma {:induction false} SplitInvertsJoin(lines: seq<Units>)
    requires lines != [] && forall line | line in lines :: LF !in line
    ensures Lines(JoinLines(lines)) == lines
  {
    assert lines[0] in lines;
    LineSplits(lines[0], JoinLines(lines[1..]));
    if |lines| > 1 {
      SplitInvertsJoin(lines[1..]);
    }
  }

  lemma {:induction false} TextsAre(lines: seq<Line>)
    ensures |Texts(lines)| == |lines| && forall i | 0 <= i < |lines| :: Texts(lines)[i] == Text(lines[i])
  {
    if lines != [] {
      TextsAre(lines[..|lines| - 1]);
    }
  }

  lemma InkStays(text: Units, i: nat)
    requires i < |text| && !IsJsSpace(text[i])
    ensures Trim(text) != []
  {
    var k := InkStaysLeft(text, i);
    InkStaysRight(TrimLeft(text), k);
  }

  lemma {:induction false} InkStaysLeft(text: Units, i: nat) returns (k: nat)
    requires i < |text| && !IsJsSpace(text[i])
    ensures k < |TrimLeft(text)| && !IsJsSpace(TrimLeft(text)[k])
  {
    if IsJsSpace(text[0]) {
      k := InkStaysLeft(text[1..], i - 1);
    } else {
      k := i;
    }
  }

  lemma {:induction false} InkStaysRight(text: Units, i: nat)
    requires i < |text| && !IsJsSpace(text[i])
    ensures TrimRight(text) != []
  {
    if IsJsSpace(text[|text| - 1]) {
      InkStaysRight(text[..|text| - 1], i);
    }
  }

  lemma {:induction false} JoinedHolds(lines: seq<Units>, k: nat, u: Unit)
    requires k < |lines| && u in lines[k]
    ensures u in JoinLines(lines)
  {
    if |lines| > 1 && k > 0 {
      JoinedHolds(lines[1..], k - 1, u);
    }
  }

  lemma {:induction false} DataLineExists(lines: seq<Line>) returns (k: nat)
    requires DataOf(lines) != []
    ensures k < |lines| && lines[k].DataLine?
  {
    if lines[|lines| - 1].DataLine? {
      k := |lines| - 1;
    } else {
      k := DataLineExists(lines[..|lines| - 1]);
    }
  }

  /** A written frame reads back as its last event name and its data lines joined by line feeds; a frame
      without data lines says nothing. */
  lemma FrameReadsBack(lines: seq<Line>)
    requires ProperFrame(lines)
    ensures
      ParseFrame(JoinLines(Texts(lines)))
      == if DataOf(lines) == [] then None else Some(Frame(EventOf(lines), JoinLines(DataOf(lines))))
  {
    hide Trim, ReadFields, Lines, JoinLines;
    var texts := Texts(lines);
    TextsAre(lines);
    forall text | text in texts ensures LF !in text {
      var i :| 0 <= i < |texts| && texts[i] == text;
      assert lines[i] in lines;
    }
    SplitInvertsJoin(texts);
    LinesRead(lines);
    if DataOf(lines) != [] {
      var k := DataLineExists(lines);
      AsciiParts();
      assert texts[k][0] == 100;
      JoinedHolds(texts, k, 100);
      var i :| 0 <= i < |JoinLines(texts)| && JoinLines(texts)[i] == 100;
      InkStays(JoinLines(texts), i);
    }
  }

  // ---- Reading a stream

  function LineEnd(crlf: bool): Units {
    if crlf then [CR, LF] else [LF]
  }

  function JoinedBy(texts: seq<Units>, end: Units): Units {
    if texts == [] then [] else if |texts| == 1 then texts[0] else texts[0] + end + JoinedBy(texts[1..], end)
  }

  /** A frame on the wire: its lines and a blank line, with LF or CR LF line ends throughout. */
  function FrameText(lines: seq<Line>, crlf: bool): Units {
    JoinedBy(Texts(lines), LineEnd(crlf)) + (LineEnd(crlf) + LineEnd(crlf))
  }

  function StreamText(frames: seq<seq<Line>>, crlf: bool): Units {
    if frames == [] then [] else FrameText(frames[0], crlf) + StreamText(frames[1..], crlf)
  }

  /** What the frames of a stream say, in order. */
  function Said(frames: seq<seq<Line>>): seq<Frame> {
    if frames == [] then []
    else (if DataOf(frames[0]) == [] then [] else [Frame(EventOf(frames[0]), JoinLines(DataOf(frames[0])))]) + Said(frames[1..])
  }

  predicate Clean(texts: seq<Units>) {
    texts != [] && forall text | text in texts :: text != [] && LF !in text && CR !in text
  }

  lemma ProperIsClean(lines: seq<Line>)
    requires ProperFrame(lines)
    ensures Clean(Texts(lines))
  {
    TextsAre(lines);
    AsciiParts();
    forall text | text in Texts(lines) ensures text != [] && LF !in text && CR !in text {
      var i :| 0 <= i < |lines| && Texts(lines)[i] == text;
      assert lines[i] in lines;
    }
  }

  lemma {:induction false} JoinedByLf(texts: seq<Units>)
    ensures JoinedBy(texts, [LF]) == JoinLines(texts)
  {
    if |texts| > 1 {
      JoinedByLf(texts[1..]);
    }
  }

  lemma {:induction false} CleanUnchanged(text: Units)
    requires CR !in text
    ensures CrLfToLf(text) == text
  {
    if text != [] {
      assert text[0] in text && forall u | u in text[1..] :: u in text;
      CleanUnchanged(text[1..]);
    }
  }

  lemma EndNormalized(crlf: bool)
    ensures CrLfToLf(LineEnd(crlf)) == [LF] && CrLfToLf(LineEnd(crlf) + LineEnd(crlf)) == [LF, LF]
  {
    NothingNormalized();
    assert [LF][1..] == [] && [CR, LF][2..] == [];
    if crlf {
      NormalizeDistributes([CR, LF], [CR, LF]);
    } else {
      NormalizeDistributes([LF], [LF]);
    }
  }

  lemma {:induction false} JoinedNormalized(texts: seq<Units>, crlf: bool)
    requires Clean(texts)
    ensures CrLfToLf(JoinedBy(texts, LineEnd(crlf))) == JoinLines(texts)
  {
    hide CrLfToLf;
    var end := LineEnd(crlf);
    var first := texts[0];
    assert first in texts;
    CleanUnchanged(first);
    if |texts| > 1 {
      assert forall text | text in texts[1..] :: text in texts;
      JoinedNormalized(texts[1..], crlf);
      EndNormalized(crlf);
      NotCr(first);
      NormalizeDistributes(first, end);
      NormalizeDistributes(first + end, JoinedBy(texts[1..], end));
    }
  }

  lemma NotCr(text: Units)
    requires CR !in text
    ensures text != [] ==> text[|text| - 1] != CR
  {
  }

  lemma {:induction false} JoinedIsInk(texts: seq<Units>)
    requires Clean(texts)
    ensures JoinLines(texts) != [] && JoinLines(texts)[0] != LF && JoinLines(texts)[|JoinLines(texts)| - 1] !in {LF, CR}
    ensures forall i | 0 <= i < |JoinLines(texts)| - 1 :: !(JoinLines(texts)[i] == LF && JoinLines(texts)[i + 1] == LF)
  {
    var first := texts[0];
    assert first in texts && first[0] in first && first[|first| - 1] in first;
    if |texts| > 1 {
      assert forall text | text in texts[1..] :: text in texts;
      JoinedIsInk(texts[1..]);
      var rest := JoinLines(texts[1..]);
      var all := first + [LF] + rest;
      forall i | 0 <= i < |all| - 1 ensures !(all[i] == LF && all[i + 1] == LF) {
        if i < |first| {
          assert all[i] == first[i] && first[i] in first;
        } else if i > |first| {
          assert all[i] == rest[i - |first| - 1] && all[i + 1] == rest[i - |first|];
        }
      }
    } else {
      forall i | 0 <= i < |first| - 1 ensures first[i] != LF {
        assert first[i] in first;
      }
    }
  }

  lemma FrameNormalized(lines: seq<Line>, crlf: bool)
    requires ProperFrame(lines)
    ensures CrLfToLf(FrameText(lines, crlf)) == JoinLines(Texts(lines)) + [LF, LF]
    ensures FrameText(lines, crlf) != [] && FrameText(lines, crlf)[|FrameText(lines, crlf)| - 1] == LF
  {
    hide CrLfToLf;
    ProperIsClean(lines);
    JoinedNormalized(Texts(lines), crlf);
    EndNormalized(crlf);
    var end := LineEnd(crlf) + LineEnd(crlf);
    var joined := JoinedBy(Texts(lines), LineEnd(crlf));
    JoinedEndsClean(Texts(lines), LineEnd(crlf));
    NormalizeDistributes(joined, end);
  }

  lemma {:induction false} JoinedEndsClean(texts: seq<Units>, end: Units)
    requires Clean(texts)
    ensures JoinedBy(texts, end) != [] && JoinedBy(texts, end)[|JoinedBy(texts, end)| - 1] != CR
  {
    var first := texts[0];
    assert first in texts && first[|first| - 1] in first;
    if |texts| > 1 {
      assert forall text | text in texts[1..] :: text in texts;
      JoinedEndsClean(texts[1..], end);
    }
  }

  lemma RawOfFrame(joined: Units, rest: Units)
    requires joined != [] && joined[|joined| - 1] != LF
    requires forall i | 0 <= i < |joined| - 1 :: !(joined[i] == LF && joined[i + 1] == LF)
    ensures
      var text := joined + [LF, LF] + rest;
      RawFrames(text) == [joined] + RawFrames(rest) && Remainder(text) == Remainder(rest)
  {
    hide RawFrames, Remainder;
    var text := joined + [LF, LF] + rest;
    NextFrame(text);
    assert text[|joined|] == LF && text[|joined| + 1] == LF;
    assert text[..|joined|] == joined && text[|joined| + 2..] == rest;
  }

  /** Normalised, the stream falls into exactly the written frames, and they say what was written. */
  lemma {:induction false} StreamReads(frames: seq<seq<Line>>, crlf: bool)
    requires forall lines | lines in frames :: ProperFrame(lines)
    ensures
      var text := CrLfToLf(StreamText(frames, crlf));
      Frames(RawFrames(text)) == Said(frames) && Remainder(text) == []
  {
    hide CrLfToLf, RawFrames, Remainder, ParseFrame, ProperFrame, FrameText, Frames;
    NothingNormalized();
    NextFrame([]);
    NoFrames();
    if frames != [] {
      var lines := frames[0];
      assert lines in frames;
      StreamReads(frames[1..], crlf);
      FrameNormalized(lines, crlf);
      var joined, rest := JoinLines(Texts(lines)), StreamText(frames[1..], crlf);
      NormalizeDistributes(FrameText(lines, crlf), rest);
      ProperIsClean(lines);
      JoinedIsInk(Texts(lines));
      RawOfFrame(joined, CrLfToLf(rest));
      FramesAppend([joined], RawFrames(CrLfToLf(rest)));
      OneFrame(joined);
      FrameReadsBack(lines);
    }
  }

  lemma NoFrames()
    ensures Frames([]) == []
  {
  }

  lemma {:induction false} StreamHasNoCrCrLf(frames: seq<seq<Line>>, crlf: bool)
    requires forall lines | lines in frames :: ProperFrame(lines)
    ensures NoCrCrLf(StreamText(frames, crlf))
    ensures StreamText(frames, crlf) != [] ==> StreamText(frames, crlf)[0] !in {CR, LF}
  {
    hide ProperFrame, FrameText;
    if frames != [] {
      var lines := frames[0];
      assert lines in frames;
      StreamHasNoCrCrLf(frames[1..], crlf);
      ProperIsClean(lines);
      FrameHasNoCrCrLf(Texts(lines), crlf);
      FrameTextIs(lines, crlf);
      NoneAcross(FrameText(lines, crlf), StreamText(frames[1..], crlf));
    }
  }

  lemma FrameTextIs(lines: seq<Line>, crlf: bool)
    ensures FrameText(lines, crlf) == JoinedBy(Texts(lines), LineEnd(crlf)) + (LineEnd(crlf) + LineEnd(crlf))
  {
  }

  lemma NoneAcross(a: Units, b: Units)
    requires NoCrCrLf(a) && NoCrCrLf(b) && a != [] && a[|a| - 1] != CR && (b == [] || b[0] != LF)
    ensures NoCrCrLf(a + b)
  {
    var all := a + b;
    forall i | 0 <= i < |all| - 2 ensures !(all[i] == CR && all[i + 1] == CR && all[i + 2] == LF) {
      if i >= |a| {
        assert all[i] == b[i - |a|] && all[i + 1] == b[i - |a| + 1] && all[i + 2] == b[i - |a| + 2];
      }
    }
  }

  lemma CleanHasNone(text: Units)
    requires CR !in text
    ensures NoCrCrLf(text)
  {
    forall i | 0 <= i < |text| - 2 ensures text[i] != CR {
      assert text[i] in text;
    }
  }

  lemma {:induction false} JoinedHasNone(texts: seq<Units>, crlf: bool)
    requires Clean(texts)
    ensures NoCrCrLf(JoinedBy(texts, LineEnd(crlf)))
    ensures JoinedBy(texts, LineEnd(crlf)) != [] && JoinedBy(texts, LineEnd(crlf))[0] !in {CR, LF}
    ensures JoinedBy(texts, LineEnd(crlf))[|JoinedBy(texts, LineEnd(crlf))| - 1] != CR
  {
    var first, end := texts[0], LineEnd(crlf);
    assert first in texts && first[0] in first && first[|first| - 1] in first;
    CleanHasNone(first);
    if |texts| > 1 {
      assert forall text | text in texts[1..] :: text in texts;
      JoinedHasNone(texts[1..], crlf);
      EndBehind(first, end, crlf);
      NoneAcross(first + end, JoinedBy(texts[1..], end));
    }
  }

  lemma EndBehind(text: Units, end: Units, crlf: bool)
    requires NoCrCrLf(text) && text != [] && text[|text| - 1] != CR && end == LineEnd(crlf)
    ensures NoCrCrLf(text + end)
  {
    var all := text + end;
    forall i | 0 <= i < |all| - 2 ensures !(all[i] == CR && all[i + 1] == CR && all[i + 2] == LF) {
      if i + 2 < |text| {
        assert all[i] == text[i] && all[i + 1] == text[i + 1] && all[i + 2] == text[i + 2];
      }
    }
  }

  lemma FrameHasNoCrCrLf(texts: seq<Units>, crlf: bool)
    requires Clean(texts)
    ensures
      var text := JoinedBy(texts, LineEnd(crlf)) + (LineEnd(crlf) + LineEnd(crlf));
      NoCrCrLf(text) && text[0] !in {CR, LF} && text[|text| - 1] != CR
  {
    var end, joined := LineEnd(crlf), JoinedBy(texts, LineEnd(crlf));
    JoinedHasNone(texts, crlf);
    EndBehind(joined, end, crlf);
    EndBehind(joined + end, end, crlf);
    assert joined + (end + end) == joined + end + end;
  }

  /** However a stream of written frames is cut into chunks, with LF or CR LF line ends, capturing it
      observes exactly what the frames say, in order, and leaves nothing in the buffer. */
  lemma StreamReadsBack(chunks: seq<Units>, frames: seq<seq<Line>>, crlf: bool, json: Units -> Json)
    requires (forall lines | lines in frames :: ProperFrame(lines)) && Concat(chunks) == StreamText(frames, crlf)
    ensures Fed(chunks, json) == ([], ObserveAll(FRESH, Said(frames), json))
  {
    hide CrLfToLf, RawFrames, Remainder, Frames, ObserveAll, NoCrCrLf, StreamText, ProperFrame, Fed, Concat, Said;
    StreamHasNoCrCrLf(frames, crlf);
    ChunkingIsIrrelevant(chunks, json);
    StreamReads(frames, crlf);
  }

  // ---- What a frame does to the observer

  lemma DoneIsClean()
    ensures Ascii("[DONE]") == [91, 68, 79, 78, 69, 93]
    ensures Ascii("data: [DONE]") == Ascii("data:") + [SPACE] + Ascii("[DONE]")
    ensures forall u | u in Ascii("data: [DONE]") :: u >= 32
  {
  }

  /** The final line of the protocol, written with the usual space and a blank line, in whatever chunks. */
  lemma DoneStreamFinishes(chunks: seq<Units>, json: Units -> Json)
    requires Concat(chunks) == Ascii("data: [DONE]") + [LF, LF]
    ensures Fed(chunks, json) == ([], FRESH.(index := 1, done := true))
  {
    hide Fed, Concat, ObserveAll, CrLfToLf;
    var line := DataLine(true, Ascii("[DONE]"));
    DoneIsClean();
    assert Text(line) == Ascii("data: [DONE]");
    assert Proper(line) && [line][..0] == [];
    assert Texts([line]) == [Text(line)] && DataOf([line]) == [line.data];
    assert StreamText([[line]], false) == FrameText([line], false) + StreamText([], false);
    assert [LF] + [LF] == [LF, LF];
    StreamReadsBack(chunks, [[line]], false, json);
    DoneFinishes(FRESH, [line], json);
  }

  /** The data `[DONE]` finishes the stream and touches nothing else, whatever its event name. */
  lemma DoneFinishes(o: Observer, lines: seq<Line>, json: Units -> Json)
    requires DataOf(lines) == [Ascii("[DONE]")]
    ensures ObserveAll(o, Said([lines]), json) == o.(index := o.index + 1, done := true)
  {
    hide Observe;
    assert Said([lines]) == [Frame(EventOf(lines), JoinLines(DataOf(lines)))] + [];
    ObserveOne(o, Said([lines])[0], json);
    DoneObserved(o, Said([lines])[0], json);
  }

  lemma DoneObserved(o: Observer, f: Frame, json: Units -> Json)
    requires f.data == Ascii("[DONE]")
    ensures Observe(o, f, json) == o.(index := o.index + 1, done := true)
  {
  }

  /** Only delta frames change the message: an append extends its text, an envelope replaces it, and every
      other frame leaves message and log alone; only `[DONE]` finishes the stream. */
  lemma OnlyDeltasChange(o: Observer, f: Frame, json: Units -> Json)
    ensures
      var t := Observe(o, f, json);
      && (t.done <==> o.done || f.data == Ascii("[DONE]"))
      && (t.assistant != o.assistant || t.wal != o.wal ==> f.event == Some(Ascii("delta")) && f.data != Ascii("[DONE]"))
      && (f.event == Some(Ascii("delta")) && f.data != Ascii("[DONE]") ==>
            match json(f.data)
            case AppendText(text) =>
              t.assistant == if o.assistant.None? then None
                             else Some(Message(o.assistant.value.id, o.assistant.value.text + text))
            case MessageEnvelope(id, text) => t.assistant == if id == [] then o.assistant else Some(Message(id, text))
            case _ => t.assistant == o.assistant && t.wal == o.wal)
  {
  }
}
