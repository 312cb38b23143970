/** `safe_title` and `markdown` of apps/desktop/src/native_transcript_export.rs. */
module Transcript {
  import opened Common
  import opened Text

  datatype Role = You | Assistant | McpTool | Activity
  datatype Message = Message(role: Role, text: string, sequence: nat)

  function RoleName(role: Role): string {
    match role
    case You => "You"
    case Assistant => "Assistant"
    case McpTool => "MCP tool"
    case Activity => "Agent activity"
  }

  /** The part before the first carriage return or newline. */
  function FirstLine(title: string): (r: string)
    ensures '\r' !in r && '\n' !in r
  {
    if title == "" || title[0] in "\r\n" then "" else [title[0]] + FirstLine(title[1..])
  }

  function SafeTitle(title: string): string {
    var trimmed := Trim(FirstLine(title));
    if trimmed == "" then "Untitled native conversation" else trimmed
  }

  predicate IsEscaped(c: char) {
    c in "\\`*_{}[]<>#!()|~"
  }

  function Escaped(title: string): string {
    if title == "" then ""
    else Escaped(title[..|title| - 1]) + (if IsEscaped(title[|title| - 1]) then "\\" else "") + [title[|title| - 1]]
  }

  function Heading(k: nat, role: Role, sequence: nat): string {
    "## " + Decimal(k) + ". " + RoleName(role) + " · event #" + Decimal(sequence)
  }

  function Subtitle(conversation: string): (r: string)
    ensures r != "" && r[0] == '*' && ('\n' in r ==> '\n' in conversation)
  {
    "*Chatarium native " + "transcript · " + "conversation " + conversation + "*"
  }

  function Coverage(): (r: string)
    ensures r != "" && '\n' !in r && r[0] == '*'
  {
    "*Visible local user/" + "assistant messages a" + "nd journal-verified " + "MCP activity. Assist" + "ant streaming may be"
    + " incomplete. This is" + " not an archive back" + "up.*"
  }

  function NoMessages(): (r: string)
    ensures r != "" && '\n' !in r && r[0] == '*'
  {
    "*No visible " + "messages " + "recorded.*"
  }

  function TitleLine(title: string): string {
    "# " + Escaped(SafeTitle(title))
  }

  /** The lines of the whole document. */
  function TitleLines(conversation: string, title: string): seq<string> {
    [TitleLine(title), "", Subtitle(conversation), "", Coverage()]
  }

  function Quoted(lines: seq<string>): (r: seq<string>)
    ensures |r| == |lines| && forall i | 0 <= i < |r| :: r[i] == "> " + lines[i]
  {
    if lines == [] then [] else ["> " + lines[0]] + Quoted(lines[1..])
  }

  function MessageLines(k: nat, m: Message): seq<string> {
    ["", Heading(k, m.role, m.sequence), ""] + Quoted(Split(Normalized(m.text), '\n'))
  }

  function BodyLines(messages: seq<Message>): seq<string> {
    if messages == [] then []
    else BodyLines(messages[..|messages| - 1]) + MessageLines(|messages|, messages[|messages| - 1])
  }

  function DocumentLines(conversation: string, title: string, messages: seq<Message>): seq<string> {
    TitleLines(conversation, title)
    + (if messages == [] then ["", NoMessages()] else [])
    + BodyLines(messages)
  }

  /** Prints the document; its lines are exactly the document lines, each terminated by a newline. */
  method Markdown(conversation: string, title: string, messages: seq<Message>) returns (text: string)
    ensures text == Unlines(DocumentLines(conversation, title, messages))
  {
    hide Subtitle, Coverage, NoMessages, MessageLines, Unlines, IsEscaped;
    text := PrintTitle(title);
    text := text + "\n\n";
    text := text + (Subtitle(conversation) + "\n\n");
    text := text + (Coverage() + "\n");
    TitleText(conversation, title);
    ghost var lines := TitleLines(conversation, title);
    if messages == [] {
      text := text + ("\n" + NoMessages() + "\n");
      EmptyText(lines);
      lines := lines + ["", NoMessages()];
    }
    var i := 0;
    assert messages[..0] == [] && lines + [] == lines;
    while i < |messages|
      invariant 0 <= i <= |messages| && text == Unlines(lines + BodyLines(messages[..i]))
    {
      assert messages[..i + 1][..i] == messages[..i];
      ghost var before := lines + BodyLines(messages[..i]);
      text := PrintMessage(text, i + 1, messages[i]);
      UnlinesDistributes(before, MessageLines(i + 1, messages[i]));
      assert before + MessageLines(i + 1, messages[i]) == lines + BodyLines(messages[..i + 1]);
      i := i + 1;
    }
    assert messages[..i] == messages;
  }

  method PrintTitle(title: string) returns (text: string)
    ensures text == TitleLine(title)
  {
    text := "# ";
    var safe := SafeTitle(title);
    var i := 0;
    while i < |safe|
      invariant 0 <= i <= |safe| && text == "# " + Escaped(safe[..i])
    {
      assert safe[..i + 1][..i] == safe[..i];
      if IsEscaped(safe[i]) {
        text := text + "\\";
      }
      text := text + [safe[i]];
      i := i + 1;
    }
    assert safe[..i] == safe;
  }

  lemma TitleText(conversation: string, title: string)
    ensures Unlines(TitleLines(conversation, title))
            == TitleLine(title) + "\n\n" + (Subtitle(conversation) + "\n\n") + (Coverage() + "\n")
  {
    hide Subtitle, Coverage, TitleLine, Unlines;
    var a, c, e := TitleLine(title), Subtitle(conversation), Coverage();
    UnlinesFirst(a, ["", c, "", e]);
    UnlinesFirst("", [c, "", e]);
    UnlinesFirst(c, ["", e]);
    UnlinesFirst("", [e]);
    UnlinesFirst(e, []);
    NoLines();
    assert [a] + ["", c, "", e] == [a, "", c, "", e] && [""] + [c, "", e] == ["", c, "", e];
    assert [c] + ["", e] == [c, "", e] && [""] + [e] == ["", e] && [e] + [] == [e];
    assert Unlines([a, "", c, "", e]) == a + "\n" + ("" + "\n" + (c + "\n" + ("" + "\n" + (e + "\n" + ""))));
  }

  lemma EmptyText(lines: seq<string>)
    ensures Unlines(lines + ["", NoMessages()]) == Unlines(lines) + ("\n" + NoMessages() + "\n")
  {
    hide NoMessages, Unlines;
    var n := NoMessages();
    UnlinesDistributes(lines, ["", n]);
    UnlinesFirst("", [n]);
    UnlinesFirst(n, []);
    NoLines();
    assert [""] + [n] == ["", n] && [n] + [] == [n];
    assert "" + "\n" + (n + "\n" + "") == "\n" + n + "\n";
  }

  lemma HeadText(heading: string)
    ensures Unlines(["", heading, ""]) == "\n" + heading + "\n\n"
  {
    hide Unlines;
    UnlinesFirst("", [heading, ""]);
    UnlinesFirst(heading, [""]);
    UnlinesFirst("", []);
    NoLines();
    assert [""] + [heading, ""] == ["", heading, ""] && [heading] + [""] == [heading, ""] && [""] + [] == [""];
    assert "" + "\n" + (heading + "\n" + ("" + "\n" + "")) == "\n" + heading + "\n\n";
  }

  /** The body of the message loop: the heading, then every normalised line behind a quote prefix. */
  method PrintMessage(text: string, k: nat, m: Message) returns (r: string)
    ensures r == text + Unlines(MessageLines(k, m))
  {
    hide Unlines, Heading, Normalized;
    r := text + ("\n" + Heading(k, m.role, m.sequence) + "\n\n");
    HeadText(Heading(k, m.role, m.sequence));
    var lines := Split(Normalized(m.text), '\n');
    ghost var head := ["", Heading(k, m.role, m.sequence), ""];
    var i := 0;
    assert head + Quoted(lines)[..0] == head;
    while i < |lines|
      invariant 0 <= i <= |lines| && r == text + Unlines(head + Quoted(lines)[..i])
    {
      ghost var done, line := head + Quoted(lines)[..i], Quoted(lines)[i];
      ghost var before := r;
      r := r + "> ";
      r := r + lines[i];
      r := r + "\n";
      assert r == before + (line + "\n");
      UnlinesDistributes(done, [line]);
      UnlinesFirst(line, []);
      NoLines();
      assert [line] + [] == [line] && line + "\n" + "" == line + "\n";
      assert done + [line] == head + Quoted(lines)[..i + 1];
      i := i + 1;
    }
    assert Quoted(lines)[..i] == Quoted(lines);
  }

  // ---- Reading the document back

  function LeadingDigits(text: string): (n: nat)
    ensures n <= |text|
  {
    if text != "" && IsDigit(text[0]) then 1 + LeadingDigits(text[1..]) else 0
  }

  function RoleMark(role: Role): string {
    RoleName(role) + " · event #"
  }

  function ParseRole(rest: string): Option<(Role, int)> {
    if RoleMark(You) <= rest then Some((You, Value(rest[|RoleMark(You)|..])))
    else if RoleMark(Assistant) <= rest then Some((Assistant, Value(rest[|RoleMark(Assistant)|..])))
    else if RoleMark(McpTool) <= rest then Some((McpTool, Value(rest[|RoleMark(McpTool)|..])))
    else if RoleMark(Activity) <= rest then Some((Activity, Value(rest[|RoleMark(Activity)|..])))
    else None
  }

  /** A role heading: `## `, a number, a dot, the role and the event number. */
  function ParseHeading(line: string): Option<(Role, int)> {
    if !("## " <= line) then None
    else
      var d := LeadingDigits(line[3..]);
      var rest := line[3 + d..];
      if d == 0 || !(". " <= rest) then None else ParseRole(rest[2..])
  }

  datatype Entry = Entry(role: Role, sequence: int, text: string)

  function QuoteCount(lines: seq<string>): (n: nat)
    ensures n <= |lines| && forall i | 0 <= i < n :: "> " <= lines[i]
  {
    if lines != [] && "> " <= lines[0] then 1 + QuoteCount(lines[1..]) else 0
  }

  function Unquoted(lines: seq<string>): seq<string>
    requires forall i | 0 <= i < |lines| :: "> " <= lines[i]
  {
    if lines == [] then [] else [lines[0][2..]] + Unquoted(lines[1..])
  }

  /** Every heading opens an entry; its text is the quote block two lines below, without the prefixes. */
  function ParseLines(lines: seq<string>): seq<Entry> {
    if |lines| < 2 then []
    else
      match ParseHeading(lines[0])
      case None => ParseLines(lines[1..])
      case Some((role, sequence)) =>
        var n := QuoteCount(lines[2..]);
        [Entry(role, sequence, Join(Unquoted(lines[2..2 + n]), '\n'))] + ParseLines(lines[2 + n..])
  }

  function Entries(messages: seq<Message>): seq<Entry> {
    if messages == [] then []
    else [Entry(messages[0].role, messages[0].sequence, Normalized(messages[0].text))] + Entries(messages[1..])
  }

  /** The body, numbered from `k`. */
  function BodyFrom(k: nat, messages: seq<Message>): seq<string>
    decreases messages
  {
    if messages == [] then [] else MessageLines(k, messages[0]) + BodyFrom(k + 1, messages[1..])
  }

  lemma {:induction false} BodyFromAppends(k: nat, a: seq<Message>, m: Message)
    ensures BodyFrom(k, a + [m]) == BodyFrom(k, a) + MessageLines(k + |a|, m)
    decreases a
  {
    hide MessageLines;
    if a == [] {
      assert [] + [m] == [m];
    } else {
      BodyFromAppends(k + 1, a[1..], m);
      assert (a + [m])[1..] == a[1..] + [m];
    }
  }

  lemma {:induction false} BodyIsBodyFrom(messages: seq<Message>)
    ensures BodyLines(messages) == BodyFrom(1, messages)
  {
    hide MessageLines;
    if messages != [] {
      var n := |messages| - 1;
      BodyIsBodyFrom(messages[..n]);
      BodyFromAppends(1, messages[..n], messages[n]);
      assert messages[..n] + [messages[n]] == messages;
    }
  }

  lemma {:induction false} DigitsLead(digits: string, rest: string)
    requires (forall c | c in digits :: IsDigit(c)) && (rest == "" || !IsDigit(rest[0]))
    ensures LeadingDigits(digits + rest) == |digits|
  {
    if digits == "" {
      assert digits + rest == rest;
    } else {
      assert digits[0] in digits && forall c | c in digits[1..] :: c in digits;
      DigitsLead(digits[1..], rest);
      assert (digits + rest)[1..] == digits[1..] + rest;
    }
  }

  lemma RoleParses(role: Role, sequence: nat)
    ensures ParseRole(RoleMark(role) + Decimal(sequence)) == Some((role, sequence as int))
  {
    hide Decimal, Value;
    ValueOfDecimal(sequence);
    var rest := RoleMark(role) + Decimal(sequence);
    assert rest[|RoleMark(role)|..] == Decimal(sequence);
    assert rest[0] == RoleMark(role)[0] && rest[1] == RoleMark(role)[1];
    assert RoleMark(You)[0] == 'Y' && RoleMark(Assistant)[0] == 'A' && RoleMark(Assistant)[1] == 's';
    assert RoleMark(McpTool)[0] == 'M' && RoleMark(Activity)[0] == 'A' && RoleMark(Activity)[1] == 'g';
  }

  /** A heading determines its role and event number. */
  lemma Slices(number: string, mark: string)
    ensures
      var line := "## " + (number + (". " + mark));
      && "## " <= line && line[3..] == number + (". " + mark) && line[3 + |number|..] == ". " + mark
      && ". " <= line[3 + |number|..] && line[3 + |number|..][2..] == mark
  {
  }

  /** A line that starts like a heading is read as one. */
  lemma LineParses(number: string, mark: string)
    requires number != "" && forall c | c in number :: IsDigit(c)
    ensures ParseHeading("## " + (number + (". " + mark))) == ParseRole(mark) && "## " <= "## " + (number + (". " + mark))
  {
    hide ParseRole, LeadingDigits;
    DigitsLead(number, ". " + mark);
    Slices(number, mark);
  }

  lemma HeadingParses(k: nat, role: Role, sequence: nat)
    ensures ParseHeading(Heading(k, role, sequence)) == Some((role, sequence as int)) && "## " <= Heading(k, role, sequence)
  {
    hide Decimal, Value, RoleMark, ParseRole, ParseHeading, Heading;
    HeadingSplits(k, role, sequence);
    ValueOfDecimal(k);
    RoleParses(role, sequence);
    LineParses(Decimal(k), RoleMark(role) + Decimal(sequence));
    assert ". " + RoleMark(role) + Decimal(sequence) == ". " + (RoleMark(role) + Decimal(sequence));
  }

  lemma HeadingSplits(k: nat, role: Role, sequence: nat)
    ensures Heading(k, role, sequence) == "## " + (Decimal(k) + (". " + RoleMark(role) + Decimal(sequence)))
  {
    hide Decimal;
  }

  lemma {:induction false} UnquotedInverts(lines: seq<string>)
    ensures Unquoted(Quoted(lines)) == lines
  {
    if lines != [] {
      UnquotedInverts(lines[1..]);
      assert Quoted(lines)[0][2..] == lines[0];
    }
  }

  lemma {:induction false} QuotesCount(lines: seq<string>, tail: seq<string>)
    requires tail != [] && tail[0] == ""
    ensures QuoteCount(Quoted(lines) + tail) == |lines|
  {
    if lines == [] {
      assert Quoted(lines) + tail == tail;
    } else {
      QuotesCount(lines[1..], tail);
      assert (Quoted(lines) + tail)[1..] == Quoted(lines[1..]) + tail;
    }
  }

  /** One message block, followed by a blank line, reads back as its entry. */
  lemma SkipLine(line: string, rest: seq<string>)
    requires ParseHeading(line).None? && rest != []
    ensures ParseLines([line] + rest) == ParseLines(rest)
  {
    assert ([line] + rest)[1..] == rest;
  }

  lemma OpenBlock(heading: string, quoted: seq<string>, tail: seq<string>, role: Role, sequence: int)
    requires ParseHeading(heading) == Some((role, sequence)) && QuoteCount(quoted + tail) == |quoted|
    ensures forall i | 0 <= i < |quoted| :: "> " <= quoted[i]
    ensures ParseLines([heading, ""] + (quoted + tail))
            == [Entry(role, sequence, Join(Unquoted(quoted), '\n'))] + ParseLines(tail)
  {
    hide ParseHeading, QuoteCount;
    var lines := [heading, ""] + (quoted + tail);
    assert lines[2..] == quoted + tail && (quoted + tail)[..|quoted|] == quoted;
    assert lines[2..2 + |quoted|] == quoted && lines[2 + |quoted|..] == tail;
  }

  lemma BlockParses(k: nat, m: Message, tail: seq<string>)
    requires tail != [] && tail[0] == ""
    ensures ParseLines(MessageLines(k, m) + tail)
            == [Entry(m.role, m.sequence, Normalized(m.text))] + ParseLines(tail)
  {
    hide Normalized, Heading, ParseHeading, QuoteCount, Quoted, ParseLines;
    var lines := Split(Normalized(m.text), '\n');
    var heading := Heading(k, m.role, m.sequence);
    HeadingParses(k, m.role, m.sequence);
    BlankIsNoHeading();
    QuotesCount(lines, tail);
    UnquotedInverts(lines);
    JoinInvertsSplit(Normalized(m.text), '\n');
    OpenBlock(heading, Quoted(lines), tail, m.role, m.sequence);
    SkipLine("", [heading, ""] + (Quoted(lines) + tail));
    assert MessageLines(k, m) + tail == [""] + ([heading, ""] + (Quoted(lines) + tail));
  }

  lemma BlankIsNoHeading()
    ensures ParseHeading("") == None
  {
  }

  lemma {:induction false} BodyParses(k: nat, messages: seq<Message>)
    ensures ParseLines(BodyFrom(k, messages) + [""]) == Entries(messages)
    decreases messages
  {
    hide MessageLines, Normalized;
    if messages == [] {
      assert BodyFrom(k, messages) + [""] == [""];
    } else {
      BodyParses(k + 1, messages[1..]);
      var tail := BodyFrom(k + 1, messages[1..]) + [""];
      FirstIsBlank(k + 1, messages[1..]);
      BlockParses(k, messages[0], tail);
      assert BodyFrom(k, messages) + [""] == MessageLines(k, messages[0]) + tail;
    }
  }

  lemma FirstIsBlank(k: nat, messages: seq<Message>)
    ensures (BodyFrom(k, messages) + [""])[0] == ""
  {
  }

  // The document as a whole

  lemma {:induction false} EscapedStaysOnLine(title: string)
    requires '\n' !in title
    ensures '\n' !in Escaped(title)
  {
    if title != "" {
      assert forall c | c in title[..|title| - 1] :: c in title;
      EscapedStaysOnLine(title[..|title| - 1]);
      assert title[|title| - 1] in title;
    }
  }

  lemma {:induction false} TrimStays(text: string)
    ensures forall c | c in TrimStart(text) :: c in text
  {
    if text != "" && IsWhiteSpace(text[0]) {
      TrimStays(text[1..]);
    }
  }

  lemma SafeTitleStaysOnLine(title: string)
    ensures '\n' !in SafeTitle(title) && SafeTitle(title) != ""
  {
    TrimStays(FirstLine(title));
    assert forall c | c in Trim(FirstLine(title)) :: c in TrimStart(FirstLine(title));
  }

  /** A line of its own that is not a role heading. */
  predicate Plain(line: string) {
    '\n' !in line && !("## " <= line)
  }

  lemma TitleIsPlain(conversation: string, title: string)
    requires '\n' !in conversation
    ensures forall i | 0 <= i < 5 :: Plain(TitleLines(conversation, title)[i])
    ensures Plain(NoMessages()) && Plain("")
  {
    hide Escaped, SafeTitle, Subtitle, Coverage, NoMessages;
    SafeTitleStaysOnLine(title);
    EscapedStaysOnLine(SafeTitle(title));
    assert TitleLine(title)[1] == ' ';
  }

  lemma NotAHeading(line: string)
    requires Plain(line)
    ensures ParseHeading(line).None?
  {
  }

  /** The lines that start with `## `. */
  function HeadingsIn(lines: seq<string>): seq<string> {
    if lines == [] then []
    else (if "## " <= lines[0] then [lines[0]] else []) + HeadingsIn(lines[1..])
  }

  function HeadingsFrom(k: nat, messages: seq<Message>): seq<string>
    decreases messages
  {
    if messages == [] then []
    else [Heading(k, messages[0].role, messages[0].sequence)] + HeadingsFrom(k + 1, messages[1..])
  }

  lemma NoHeadings()
    ensures HeadingsIn([]) == []
  {
  }

  lemma FirstHeading(line: string, rest: seq<string>)
    ensures HeadingsIn([line] + rest) == (if "## " <= line then [line] else []) + HeadingsIn(rest)
  {
    assert ([line] + rest)[1..] == rest;
  }

  lemma {:induction false} HeadingsDistribute(a: seq<string>, b: seq<string>)
    ensures HeadingsIn(a + b) == HeadingsIn(a) + HeadingsIn(b)
  {
    hide HeadingsIn;
    NoHeadings();
    if a == [] {
      assert a + b == b && [] + HeadingsIn(b) == HeadingsIn(b);
    } else {
      HeadingsDistribute(a[1..], b);
      FirstHeading(a[0], a[1..]);
      FirstHeading(a[0], a[1..] + b);
      assert a == [a[0]] + a[1..] && a + b == [a[0]] + (a[1..] + b);
    }
  }

  lemma {:induction false} NoHeadingsIn(lines: seq<string>)
    requires forall i | 0 <= i < |lines| :: !("## " <= lines[i])
    ensures HeadingsIn(lines) == []
  {
    if lines != [] {
      NoHeadingsIn(lines[1..]);
    }
  }

  lemma BlockHeadings(k: nat, m: Message)
    ensures HeadingsIn(MessageLines(k, m)) == [Heading(k, m.role, m.sequence)]
  {
    hide Heading, Normalized, Split;
    var heading := Heading(k, m.role, m.sequence);
    var quoted := Quoted(Split(Normalized(m.text), '\n'));
    HeadingParses(k, m.role, m.sequence);
    forall i | 0 <= i < |quoted| ensures !("## " <= quoted[i]) { assert quoted[i][0] == '>'; }
    NoHeadingsIn(quoted);
    HeadingsDistribute(["", heading, ""], quoted);
    HeadingsDistribute([""], [heading, ""]);
    HeadingsDistribute([heading], [""]);
    assert ["", heading, ""] == [""] + ([heading] + [""]);
    assert [heading][1..] == [];
  }

  lemma {:induction false} BodyHeadings(k: nat, messages: seq<Message>)
    ensures HeadingsIn(BodyFrom(k, messages)) == HeadingsFrom(k, messages)
    decreases messages
  {
    hide MessageLines, Heading;
    if messages != [] {
      BodyHeadings(k + 1, messages[1..]);
      BlockHeadings(k, messages[0]);
      HeadingsDistribute(MessageLines(k, messages[0]), BodyFrom(k + 1, messages[1..]));
    }
  }

  lemma HeadingOnLine(k: nat, role: Role, sequence: nat)
    ensures '\n' !in Heading(k, role, sequence)
  {
    hide Decimal;
    ValueOfDecimal(k);
    ValueOfDecimal(sequence);
    assert '\n' !in RoleName(role) && '\n' !in " · event #" && '\n' !in "## " && '\n' !in ". ";
  }

  predicate OnLines(lines: seq<string>) {
    forall line | line in lines :: '\n' !in line
  }

  lemma BlockOnLines(k: nat, m: Message)
    ensures OnLines(MessageLines(k, m))
  {
    hide Heading, Normalized;
    HeadingOnLine(k, m.role, m.sequence);
    var lines := Split(Normalized(m.text), '\n');
    forall line | line in Quoted(lines) ensures '\n' !in line {
      var i :| 0 <= i < |lines| && line == Quoted(lines)[i];
      assert lines[i] in lines && line == "> " + lines[i];
    }
  }

  lemma {:induction false} BodyOnLines(k: nat, messages: seq<Message>)
    ensures OnLines(BodyFrom(k, messages))
    decreases messages
  {
    hide MessageLines;
    if messages != [] {
      BlockOnLines(k, messages[0]);
      BodyOnLines(k + 1, messages[1..]);
    }
  }

  lemma {:induction false} SkipPlain(lines: seq<string>, rest: seq<string>)
    requires (forall i | 0 <= i < |lines| :: Plain(lines[i])) && rest != []
    ensures ParseLines(lines + rest) == ParseLines(rest) && HeadingsIn(lines + rest) == HeadingsIn(rest)
  {
    hide ParseLines, HeadingsIn, ParseHeading;
    NoHeadingsIn(lines);
    HeadingsDistribute(lines, rest);
    if lines == [] {
      assert lines + rest == rest;
    } else {
      SkipPlain(lines[1..], rest);
      NotAHeading(lines[0]);
      SkipLine(lines[0], lines[1..] + rest);
      assert lines + rest == [lines[0]] + (lines[1..] + rest);
    }
  }

  /** The exported text reads back: for any title and messages its `## ` lines are exactly the role
      headings in order, and the quote blocks below them are the normalised message texts. */
  lemma ExportReadsBack(conversation: string, title: string, messages: seq<Message>)
    requires '\n' !in conversation
    ensures
      var lines := Split(Unlines(DocumentLines(conversation, title, messages)), '\n');
      ParseLines(lines) == Entries(messages) && HeadingsIn(lines) == HeadingsFrom(1, messages)
  {
    hide TitleLine, Subtitle, Coverage, NoMessages, ParseLines, Entries, BodyFrom, HeadingsFrom, Unlines, Plain;
    var front := TitleLines(conversation, title) + if messages == [] then ["", NoMessages()] else [];
    var body := BodyFrom(1, messages);
    TitleIsPlain(conversation, title);
    BodyIsBodyFrom(messages);
    BodyOnLines(1, messages);
    PlainOnLines(front);
    assert DocumentLines(conversation, title, messages) == front + body;
    SplitInvertsUnlines(front + body);
    SkipPlain(front, body + [""]);
    assert front + body + [""] == front + (body + [""]);
    BodyParses(1, messages);
    BodyHeadings(1, messages);
    HeadingsDistribute(body, [""]);
    assert HeadingsIn([""]) == [] && HeadingsIn(body) + [] == HeadingsIn(body);
  }

  lemma PlainOnLines(lines: seq<string>)
    requires forall i | 0 <= i < |lines| :: Plain(lines[i])
    ensures OnLines(lines)
  {
  }

  // ---- Titles and names

  /** The names the headings show. */
  lemma HeadingNames(k: nat, role: Role, name: string, sequence: nat)
    requires
      || (role.You? && name == "You") || (role.Assistant? && name == "Assistant")
      || (role.McpTool? && name == "MCP tool") || (role.Activity? && name == "Agent activity")
    ensures Heading(k, role, sequence) == "## " + Decimal(k) + ". " + name + " · event #" + Decimal(sequence)
  {
    hide Decimal;
  }

  /** A backslash stands for the character behind it. */
  function Unescaped(text: string): string {
    if text == "" then ""
    else if text[0] == '\\' && |text| > 1 then [text[1]] + Unescaped(text[2..])
    else [text[0]] + Unescaped(text[1..])
  }

  lemma OneUnescaped(c: char, rest: string)
    ensures Unescaped((if IsEscaped(c) then "\\" else "") + [c] + rest) == [c] + Unescaped(rest)
  {
    var text := (if IsEscaped(c) then "\\" else "") + [c] + rest;
    assert IsEscaped(c) ==> text[2..] == rest;
    assert !IsEscaped(c) ==> text[1..] == rest;
  }

  lemma {:induction false} UnescapedAppends(title: string, rest: string)
    ensures Unescaped(Escaped(title) + rest) == title + Unescaped(rest)
    decreases |title|
  {
    hide IsEscaped, Unescaped;
    if title == "" {
      assert Escaped(title) + rest == rest && title + Unescaped(rest) == Unescaped(rest);
    } else {
      var front, c := title[..|title| - 1], title[|title| - 1];
      var piece := (if IsEscaped(c) then "\\" else "") + [c];
      assert Escaped(title) + rest == Escaped(front) + (piece + rest);
      UnescapedAppends(front, piece + rest);
      OneUnescaped(c, rest);
      assert front + ([c] + Unescaped(rest)) == title + Unescaped(rest);
    }
  }

  /** The title line gives the safe title back, so no two safe titles print alike. */
  lemma TitleReadsBack(title: string)
    ensures "# " <= TitleLine(title) && Unescaped(TitleLine(title)[2..]) == SafeTitle(title)
  {
    hide SafeTitle, IsEscaped;
    assert Unescaped("") == "";
    var safe := SafeTitle(title);
    assert TitleLine(title)[2..] == Escaped(safe) && Escaped(safe) + "" == Escaped(safe) && safe + "" == safe;
    UnescapedAppends(safe, "");
  }
}
