/** The inline emphasis parser of apps/desktop/src/markdown_inline.rs. */
module InlineMarkdown {
  import opened Common
  import opened Text

  datatype Style = Style(bold: bool, italic: bool, strike: bool, code: bool)
  datatype Span = Span(text: string, style: Style)

  const PLAIN := Style(false, false, false, false)

  datatype Kind = Bold | Italic | Strike | Code

  function Changed(style: Style, kind: Kind): Style {
    match kind
    case Bold => style.(bold := true)
    case Italic => style.(italic := true)
    case Strike => style.(strike := true)
    case Code => style.(code := true)
  }

  /** The characters a backslash escapes, which are also the only ones the parser ever drops. */
  predicate IsMark(c: char) {
    c in "\\*_~`"
  }

  /** `text.starts_with(prefix)` */
  predicate Starts(text: string, prefix: string) {
    prefix <= text
  }

  /** The delimiter at the start of the text, the longer ones first. */
  function Marker(rest: string): Option<(string, Kind)> {
    if Starts(rest, "**") then Some(("**", Bold))
    else if Starts(rest, "__") then Some(("__", Bold))
    else if Starts(rest, "~~") then Some(("~~", Strike))
    else if Starts(rest, "`") then Some(("`", Code))
    else if Starts(rest, "*") then Some(("*", Italic))
    else if Starts(rest, "_") then Some(("_", Italic))
    else None
  }

  /** `text.find(pattern)` */
  function Find(text: string, pattern: string): (r: Option<nat>)
    requires pattern != ""
    ensures r.Some? ==> r.value + |pattern| <= |text| && text[r.value..r.value + |pattern|] == pattern
    ensures r.Some? ==> forall i | 0 <= i < r.value :: !Starts(text[i..], pattern)
    ensures r.None? ==> forall i | 0 <= i <= |text| :: !Starts(text[i..], pattern)
  {
    if Starts(text, pattern) then Some(0)
    else if text == "" then None
    else
      var later := Find(text[1..], pattern);
      assert forall i | 1 <= i <= |text| :: text[i..] == text[1..][i - 1..];
      match later
      case None => None
      case Some(k) => Some(k + 1)
  }

  /** A delimited run at the start of the text: its kind, its inside and its whole length. */
  datatype Run = Run(kind: Kind, inner: string, length: nat)

  function RunAt(rest: string): (r: Option<Run>)
    ensures r.Some? ==> r.value.inner != "" && |r.value.inner| < r.value.length <= |rest|
  {
    match Marker(rest)
    case None => None
    case Some((delimiter, kind)) =>
      match Find(rest[|delimiter|..], delimiter)
      case None => None
      case Some(close) =>
        var inner := rest[|delimiter|..|delimiter| + close];
        if inner != "" && !IsWhiteSpace(inner[0]) && !IsWhiteSpace(inner[|inner| - 1]) then
          Some(Run(kind, inner, 2 * |delimiter| + close))
        else None
  }

  predicate Escapes(rest: string) {
    |rest| > 1 && rest[0] == '\\' && IsMark(rest[1])
  }

  // ---- What is pushed, and how pushes merge

  /** The pieces pushed for an input, in order, before equal neighbours merge. */
  function Pieces(input: string, style: Style, depth: nat): seq<Span>
    decreases |input|
  {
    if depth >= 8 then [Span(input, style)]
    else if input == "" then []
    else if Escapes(input) then [Span(input[1..2], style)] + Pieces(input[2..], style, depth)
    else
      match RunAt(input)
      case Some(run) =>
        (if run.kind.Code? then [Span(run.inner, Changed(style, run.kind))]
         else Pieces(run.inner, Changed(style, run.kind), depth + 1))
        + Pieces(input[run.length..], style, depth)
      case None => [Span(input[..1], style)] + Pieces(input[1..], style, depth)
  }

  /** `push`: nothing for an empty text; otherwise extend the last span of this style or open a new one. */
  function Pushed(spans: seq<Span>, piece: Span): seq<Span> {
    if piece.text == "" then spans
    else if spans != [] && spans[|spans| - 1].style == piece.style then
      spans[..|spans| - 1] + [Span(spans[|spans| - 1].text + piece.text, piece.style)]
    else spans + [piece]
  }

  function PushedAll(spans: seq<Span>, pieces: seq<Span>): seq<Span>
    decreases |pieces|
  {
    if pieces == [] then spans else PushedAll(Pushed(spans, pieces[0]), pieces[1..])
  }

  function Parsed(input: string): seq<Span> {
    PushedAll([], Pieces(input, PLAIN, 0))
  }

  lemma {:induction false} PushedAllAppends(spans: seq<Span>, a: seq<Span>, b: seq<Span>)
    ensures PushedAll(spans, a + b) == PushedAll(PushedAll(spans, a), b)
    decreases |a|
  {
    if a == [] {
      assert a + b == b;
    } else {
      PushedAllAppends(Pushed(spans, a[0]), a[1..], b);
      assert (a + b)[1..] == a[1..] + b;
    }
  }

  /** The vector that `push` and `append` extend in place. */
  class Output {
    var spans: seq<Span>

    constructor ()
      ensures spans == []
    {
      spans := [];
    }

    method Push(text: string, style: Style)
      modifies this
      ensures spans == Pushed(old(spans), Span(text, style))
    {
      if text == "" {
        return;
      }
      if spans != [] {
        var last := spans[|spans| - 1];
        if last.style == style {
          spans := spans[|spans| - 1 := last.(text := last.text + text)];
          return;
        }
      }
      spans := spans + [Span(text, style)];
    }

    /** The recursion is never deeper than 8. */
    method Append(input: string, style: Style, depth: nat)
      requires depth <= 8
      modifies this
      ensures spans == PushedAll(old(spans), Pieces(input, style, depth))
      decreases |input|, 8 - depth
    {
      hide Pushed, RunAt, Pieces, PushedAll, Changed;
      if depth >= 8 {
        Push(input, style);
        PushedOne(old(spans), Span(input, style));
        TooDeep(input, style, depth);
        return;
      }
      var index := 0;
      assert input[0..] == input;
      while index < |input|
        invariant 0 <= index <= |input|
        invariant PushedAll(spans, Pieces(input[index..], style, depth)) == PushedAll(old(spans), Pieces(input, style, depth))
      {
        var rest := input[index..];
        ghost var before := spans;
        if Escapes(rest) {
          EscapeStep(before, rest, style, depth);
          Push(rest[1..2], style);
          assert rest[2..] == input[index + 2..];
          index := index + 2;
          continue;
        }
        var run := RunAt(rest);
        if run.Some? {
          RunStep(before, rest, style, depth);
          var changed := Changed(style, run.value.kind);
          if run.value.kind.Code? {
            Push(run.value.inner, changed);
            PushedOne(before, Span(run.value.inner, changed));
          } else {
            Append(run.value.inner, changed, depth + 1);
          }
          assert rest[run.value.length..] == input[index + run.value.length..];
          index := index + run.value.length;
          continue;
        }
        PlainStep(before, rest, style, depth);
        Push(rest[..1], style);
        assert rest[1..] == input[index + 1..];
        index := index + 1;
      }
      NoPieces(spans, style, depth);
      assert input[index..] == "";
    }
  }

  method Parse(input: string) returns (r: seq<Span>)
    ensures r == Parsed(input)
  {
    var out := new Output();
    out.Append(input, PLAIN, 0);
    r := out.spans;
  }

  lemma PushedOne(spans: seq<Span>, piece: Span)
    ensures PushedAll(spans, [piece]) == Pushed(spans, piece)
  {
  }

  lemma TooDeep(input: string, style: Style, depth: nat)
    requires depth >= 8
    ensures Pieces(input, style, depth) == [Span(input, style)]
  {
  }

  lemma NoPieces(spans: seq<Span>, style: Style, depth: nat)
    requires depth < 8
    ensures PushedAll(spans, Pieces("", style, depth)) == spans
  {
  }

  lemma EscapeStep(spans: seq<Span>, rest: string, style: Style, depth: nat)
    requires depth < 8 && Escapes(rest)
    ensures PushedAll(spans, Pieces(rest, style, depth))
            == PushedAll(Pushed(spans, Span(rest[1..2], style)), Pieces(rest[2..], style, depth))
  {
    hide Pushed;
    PushedAllAppends(spans, [Span(rest[1..2], style)], Pieces(rest[2..], style, depth));
    PushedOne(spans, Span(rest[1..2], style));
  }

  lemma RunStep(spans: seq<Span>, rest: string, style: Style, depth: nat)
    requires depth < 8 && rest != "" && !Escapes(rest) && RunAt(rest).Some?
    ensures
      var run := RunAt(rest).value;
      var inside := if run.kind.Code? then [Span(run.inner, Changed(style, run.kind))]
                    else Pieces(run.inner, Changed(style, run.kind), depth + 1);
      PushedAll(spans, Pieces(rest, style, depth))
      == PushedAll(PushedAll(spans, inside), Pieces(rest[run.length..], style, depth))
  {
    hide Pushed, RunAt, PushedAll;
    var run := RunAt(rest).value;
    var inside := if run.kind.Code? then [Span(run.inner, Changed(style, run.kind))]
                  else Pieces(run.inner, Changed(style, run.kind), depth + 1);
    PushedAllAppends(spans, inside, Pieces(rest[run.length..], style, depth));
  }

  lemma PlainStep(spans: seq<Span>, rest: string, style: Style, depth: nat)
    requires depth < 8 && rest != "" && !Escapes(rest) && RunAt(rest).None?
    ensures PushedAll(spans, Pieces(rest, style, depth))
            == PushedAll(Pushed(spans, Span(rest[..1], style)), Pieces(rest[1..], style, depth))
  {
    hide Pushed, RunAt;
    PushedAllAppends(spans, [Span(rest[..1], style)], Pieces(rest[1..], style, depth));
    PushedOne(spans, Span(rest[..1], style));
  }

  // ---- No empty span, no equal neighbours

  predicate Canonical(spans: seq<Span>) {
    && (forall i | 0 <= i < |spans| :: spans[i].text != "")
    && (forall i | 0 < i < |spans| :: spans[i - 1].style != spans[i].style)
  }

  lemma {:induction false} PushedAllCanonical(spans: seq<Span>, pieces: seq<Span>)
    requires Canonical(spans)
    ensures Canonical(PushedAll(spans, pieces))
    decreases |pieces|
  {
    if pieces != [] {
      PushedAllCanonical(Pushed(spans, pieces[0]), pieces[1..]);
    }
  }

  /** No span of a parse is empty and adjacent spans differ in style. */
  lemma ParsedIsCanonical(input: string)
    ensures Canonical(Parsed(input))
  {
    PushedAllCanonical([], Pieces(input, PLAIN, 0));
  }

  // ---- The text that remains

  function Plain(spans: seq<Span>): string {
    if spans == [] then "" else Plain(spans[..|spans| - 1]) + spans[|spans| - 1].text
  }

  /** `kept` is the input with some marks left out. */
  predicate DropsOnlyMarks(input: string, kept: string) {
    if input == "" then kept == ""
    else
      || (kept != "" && kept[0] == input[0] && DropsOnlyMarks(input[1..], kept[1..]))
      || (IsMark(input[0]) && DropsOnlyMarks(input[1..], kept))
  }

  lemma {:induction false} DropsAppend(a: string, ka: string, b: string, kb: string)
    requires DropsOnlyMarks(a, ka) && DropsOnlyMarks(b, kb)
    ensures DropsOnlyMarks(a + b, ka + kb)
  {
    if a == "" {
      assert a + b == b && ka + kb == kb;
    } else {
      assert (a + b)[1..] == a[1..] + b;
      if ka != "" && ka[0] == a[0] && DropsOnlyMarks(a[1..], ka[1..]) {
        DropsAppend(a[1..], ka[1..], b, kb);
        assert (ka + kb)[1..] == ka[1..] + kb;
      } else {
        DropsAppend(a[1..], ka, b, kb);
      }
    }
  }

  lemma {:induction false} KeepsAll(text: string)
    ensures DropsOnlyMarks(text, text)
  {
    if text != "" {
      KeepsAll(text[1..]);
    }
  }

  lemma {:induction false} DropsMarks(marks: string)
    requires forall c | c in marks :: IsMark(c)
    ensures DropsOnlyMarks(marks, "")
  {
    if marks != "" {
      assert marks[0] in marks && forall c | c in marks[1..] :: c in marks;
      DropsMarks(marks[1..]);
    }
  }

  lemma {:induction false} PlainAppends(a: seq<Span>, b: seq<Span>)
    ensures Plain(a + b) == Plain(a) + Plain(b)
  {
    if b == [] {
      assert a + b == a;
    } else {
      PlainAppends(a, b[..|b| - 1]);
      assert (a + b)[..|a + b| - 1] == a + b[..|b| - 1];
    }
  }

  lemma PlainOne(piece: Span)
    ensures Plain([piece]) == piece.text
  {
    assert [piece][..0] == [];
  }

  lemma PushedKeepsText(spans: seq<Span>, piece: Span)
    ensures Plain(Pushed(spans, piece)) == Plain(spans) + piece.text
  {
    hide Plain;
    PlainAppends(spans, [piece]);
    PlainOne(piece);
    if piece.text == "" {
      assert Plain(spans) + "" == Plain(spans);
    } else if spans != [] && spans[|spans| - 1].style == piece.style {
      var front, old_ := spans[..|spans| - 1], spans[|spans| - 1];
      var last := Span(old_.text + piece.text, piece.style);
      assert spans == front + [old_];
      PlainAppends(front, [old_]);
      PlainAppends(front, [last]);
      PlainOne(last);
      PlainOne(old_);
    }
  }

  lemma {:induction false} PushedAllKeepsText(spans: seq<Span>, pieces: seq<Span>)
    ensures Plain(PushedAll(spans, pieces)) == Plain(spans) + Plain(pieces)
    decreases |pieces|
  {
    hide Pushed, Plain;
    NoText();
    if pieces == [] {
      assert Plain(spans) + "" == Plain(spans);
    } else {
      PushedAllKeepsText(Pushed(spans, pieces[0]), pieces[1..]);
      PushedKeepsText(spans, pieces[0]);
      PlainAppends([pieces[0]], pieces[1..]);
      PlainOne(pieces[0]);
      assert pieces == [pieces[0]] + pieces[1..];
    }
  }

  /** A delimited run is its inside between two equal marks. */
  lemma MarkerIsMarks(rest: string)
    requires Marker(rest).Some?
    ensures forall c | c in Marker(rest).value.0 :: IsMark(c)
    ensures Marker(rest).value.0 <= rest
  {
  }

  lemma RunSplits(rest: string)
    requires RunAt(rest).Some?
    ensures
      var run := RunAt(rest).value;
      exists delimiter :: (forall c | c in delimiter :: IsMark(c))
        && rest == delimiter + run.inner + delimiter + rest[run.length..]
  {
    hide Marker, IsMark;
    MarkerIsMarks(rest);
    var delimiter := Marker(rest).value.0;
    var close := Find(rest[|delimiter|..], delimiter).value;
    var run := RunAt(rest).value;
    assert rest[..|delimiter|] == delimiter;
    assert rest[|delimiter|..][close..close + |delimiter|] == rest[|delimiter| + close..run.length];
    assert rest == rest[..|delimiter|] + rest[|delimiter|..|delimiter| + close] + rest[|delimiter| + close..run.length]
                   + rest[run.length..];
  }

  lemma RunDrops(rest: string, run: Run, kept: string, tail: string)
    requires RunAt(rest) == Some(run) && DropsOnlyMarks(run.inner, kept) && DropsOnlyMarks(rest[run.length..], tail)
    ensures DropsOnlyMarks(rest, kept + tail)
  {
    hide RunAt;
    RunSplits(rest);
    var delimiter :| (forall c | c in delimiter :: IsMark(c))
      && rest == delimiter + run.inner + delimiter + rest[run.length..];
    DropsMarks(delimiter);
    DropsAppend(delimiter, "", run.inner, kept);
    DropsAppend(delimiter + run.inner, "" + kept, delimiter, "");
    DropsAppend(delimiter + run.inner + delimiter, "" + kept + "", rest[run.length..], tail);
    assert "" + kept + "" + tail == kept + tail;
  }

  lemma {:induction false} PiecesDropOnlyMarks(input: string, style: Style, depth: nat)
    ensures DropsOnlyMarks(input, Plain(Pieces(input, style, depth)))
    decreases |input|
  {
    hide RunAt, DropsOnlyMarks, Plain, IsMark;
    if depth >= 8 {
      PlainOne(Span(input, style));
      KeepsAll(input);
    } else if input == "" {
      KeepsAll("");
      NoText();
    } else if Escapes(input) {
      PiecesDropOnlyMarks(input[2..], style, depth);
      EscapeDrops(input, style, Pieces(input[2..], style, depth));
    } else if RunAt(input).Some? {
      var run := RunAt(input).value;
      var changed := Changed(style, run.kind);
      var inside := if run.kind.Code? then [Span(run.inner, changed)] else Pieces(run.inner, changed, depth + 1);
      PiecesDropOnlyMarks(input[run.length..], style, depth);
      if run.kind.Code? {
        PlainOne(Span(run.inner, changed));
        KeepsAll(run.inner);
      } else {
        PiecesDropOnlyMarks(run.inner, changed, depth + 1);
      }
      RunDrops(input, run, Plain(inside), Plain(Pieces(input[run.length..], style, depth)));
      PlainAppends(inside, Pieces(input[run.length..], style, depth));
    } else {
      PiecesDropOnlyMarks(input[1..], style, depth);
      KeepsAll(input[..1]);
      PlainOne(Span(input[..1], style));
      PlainAppends([Span(input[..1], style)], Pieces(input[1..], style, depth));
      DropsAppend(input[..1], input[..1], input[1..], Plain(Pieces(input[1..], style, depth)));
      assert input[..1] + input[1..] == input;
    }
  }

  lemma NoText()
    ensures Plain([]) == ""
  {
  }

  lemma EscapeDrops(input: string, style: Style, rest: seq<Span>)
    requires Escapes(input) && DropsOnlyMarks(input[2..], Plain(rest))
    ensures DropsOnlyMarks(input, Plain([Span(input[1..2], style)] + rest))
  {
    PlainAppends([Span(input[1..2], style)], rest);
    PlainOne(Span(input[1..2], style));
    var kept := input[1..2] + Plain(rest);
    assert input[1..][1..] == input[2..] && kept[1..] == Plain(rest);
    assert DropsOnlyMarks(input[1..], kept);
  }

  /** The text of a parse is the input with some backslashes and delimiter characters left out. */
  lemma ParsedDropsOnlyMarks(input: string)
    ensures DropsOnlyMarks(input, Plain(Parsed(input)))
  {
    hide Pieces, DropsOnlyMarks, PushedAll;
    PiecesDropOnlyMarks(input, PLAIN, 0);
    PushedAllKeepsText([], Pieces(input, PLAIN, 0));
    NoText();
    assert "" + Plain(Pieces(input, PLAIN, 0)) == Plain(Pieces(input, PLAIN, 0));
  }

  // ---- Escaping

  function Escaped(text: string): string {
    if text == "" then "" else (if IsMark(text[0]) then ['\\', text[0]] else [text[0]]) + Escaped(text[1..])
  }

  function Singles(text: string, style: Style): seq<Span> {
    if text == "" then [] else [Span(text[..1], style)] + Singles(text[1..], style)
  }

  lemma OrdinaryCharacter(rest: string)
    requires rest != "" && !IsMark(rest[0])
    ensures RunAt(rest).None? && rest[0] != '\\'
  {
  }

  lemma {:induction false} EscapedPieces(text: string, style: Style)
    ensures Pieces(Escaped(text), style, 0) == Singles(text, style)
  {
    hide RunAt, IsMark;
    if text != "" {
      EscapedPieces(text[1..], style);
      var input := Escaped(text);
      if IsMark(text[0]) {
        assert input[2..] == Escaped(text[1..]) && input[1..2] == text[..1];
      } else {
        assert input[1..] == Escaped(text[1..]) && input[..1] == text[..1];
        OrdinaryCharacter(input);
      }
    }
  }

  lemma {:induction false} SinglesMerge(before: string, text: string, style: Style)
    requires before != ""
    ensures PushedAll([Span(before, style)], Singles(text, style)) == [Span(before + text, style)]
    decreases |text|
  {
    if text == "" {
      assert before + text == before;
    } else {
      SinglesMerge(before + text[..1], text[1..], style);
      assert before + text[..1] + text[1..] == before + text;
      assert Singles(text, style)[1..] == Singles(text[1..], style);
      assert Pushed([Span(before, style)], Span(text[..1], style)) == [Span(before + text[..1], style)];
    }
  }

  /** Escaping any non-empty text and parsing gives that text back as one plain span. */
  lemma EscapeRoundTrip(text: string)
    requires text != ""
    ensures Parsed(Escaped(text)) == [Span(text, PLAIN)]
  {
    EscapedPieces(text, PLAIN);
    SinglesParse(text, PLAIN);
  }

  // ---- Delimiters

  /** The style each delimiter gives. */
  predicate Gives(delimiter: string, style: Style) {
    || (delimiter in {"**", "__"} && style == Style(true, false, false, false))
    || (delimiter in {"*", "_"} && style == Style(false, true, false, false))
    || (delimiter == "~~" && style == Style(false, false, true, false))
    || (delimiter == "`" && style == Style(false, false, false, true))
  }

  /** Text without marks, and without white space at its ends. */
  predicate Solid(text: string) {
    && text != "" && !IsWhiteSpace(text[0]) && !IsWhiteSpace(text[|text| - 1])
    && forall c | c in text :: !IsMark(c)
  }

  lemma {:induction false} UnmarkedPieces(text: string, style: Style, depth: nat)
    requires depth < 8 && forall c | c in text :: !IsMark(c)
    ensures Pieces(text, style, depth) == Singles(text, style)
  {
    hide RunAt, IsMark;
    if text != "" {
      assert text[0] in text && forall c | c in text[1..] :: c in text;
      UnmarkedPieces(text[1..], style, depth);
      OrdinaryCharacter(text);
    }
  }

  lemma MarkerOf(delimiter: string, style: Style, text: string)
    requires Gives(delimiter, style) && Solid(text)
    ensures Marker(delimiter + text + delimiter).Some? && Marker(delimiter + text + delimiter).value.0 == delimiter
    ensures Changed(PLAIN, Marker(delimiter + text + delimiter).value.1) == style
    ensures Marker(delimiter + text + delimiter).value.1.Code? <==> delimiter == "`"
    ensures (delimiter + text + delimiter)[0] != '\\' && 1 <= |delimiter| <= 2
  {
    var rest := delimiter + text + delimiter;
    assert text[0] in text && rest[|delimiter|] == text[0];
    assert rest[0] == delimiter[0] && (|delimiter| == 2 ==> rest[1] == delimiter[1]);
    assert |delimiter| == 2 ==> rest[..2] == delimiter;
    assert |delimiter| == 1 ==> rest[..1] == delimiter;
  }

  lemma WrappedRun(delimiter: string, style: Style, text: string)
    requires Gives(delimiter, style) && Solid(text)
    ensures
      var rest := delimiter + text + delimiter;
      && RunAt(rest).Some? && RunAt(rest).value.inner == text && RunAt(rest).value.length == |rest|
      && Changed(PLAIN, RunAt(rest).value.kind) == style && !Escapes(rest) && rest != ""
      && (RunAt(rest).value.kind.Code? <==> delimiter == "`")
  {
    hide Marker, IsMark;
    var rest := delimiter + text + delimiter;
    MarkerOf(delimiter, style, text);
    var after := rest[|delimiter|..];
    assert after == text + delimiter && after[|text|..] == delimiter;
    var close := Find(after, delimiter);
    assert Starts(after[|text|..], delimiter);
    MarkStarts(delimiter, style);
    forall i | 0 <= i < |text| ensures !Starts(after[i..], delimiter) {
      assert after[i..][0] == text[i] && text[i] in text;
    }
    assert rest[|delimiter|..|delimiter| + |text|] == text;
  }

  lemma MarkStarts(delimiter: string, style: Style)
    requires Gives(delimiter, style)
    ensures delimiter != "" && IsMark(delimiter[0])
  {
  }

  /** Unmarked text between two equal delimiters parses to one span of the style the delimiter stands for. */
  lemma WrappedParses(delimiter: string, style: Style, text: string)
    requires Gives(delimiter, style) && Solid(text)
    ensures Parsed(delimiter + text + delimiter) == [Span(text, style)]
  {
    hide RunAt, IsMark, Gives, Changed, Escapes;
    var rest := delimiter + text + delimiter;
    WrappedRun(delimiter, style, text);
    var run := RunAt(rest).value;
    assert rest[run.length..] == "";
    assert Pieces("", PLAIN, 0) == [];
    if run.kind.Code? {
      assert Pieces(rest, PLAIN, 0) == [Span(text, style)] + [];
      PushedOne([], Span(text, style));
    } else {
      UnmarkedPieces(text, style, 1);
      assert Pieces(rest, PLAIN, 0) == Singles(text, style) + [];
      assert Singles(text, style) + [] == Singles(text, style);
      SinglesParse(text, style);
    }
  }

  lemma SinglesParse(text: string, style: Style)
    requires text != ""
    ensures PushedAll([], Singles(text, style)) == [Span(text, style)]
  {
    SinglesMerge(text[..1], text[1..], style);
    assert text[..1] + text[1..] == text;
    assert Singles(text, style)[1..] == Singles(text[1..], style);
    assert Pushed([], Span(text[..1], style)) == [Span(text[..1], style)];
  }
}
