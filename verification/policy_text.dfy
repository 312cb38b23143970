/** The policy text of apps/desktop/src/mcp_agent_defaults.rs: `provider::tool = mode` lines as a map. */
module PolicyText {
  import opened Common
  import opened Text

  datatype Mode = Automatic | Ask | Manual | Disabled

  function Name(mode: Mode): string {
    match mode
    case Automatic => "automatic"
    case Ask => "ask"
    case Manual => "manual"
    case Disabled => "disabled"
  }

  function ModeOf(name: string): Option<Mode> {
    if name == "automatic" then Some(Automatic)
    else if name == "ask" then Some(Ask)
    else if name == "manual" then Some(Manual)
    else if name == "disabled" then Some(Disabled)
    else None
  }

  // ---- Lines of the standard library

  /** A line without its CR LF carriage return. */
  function StripCr(line: string): (r: string)
    ensures r <= line
  {
    if line != "" && line[|line| - 1] == '\r' then line[..|line| - 1] else line
  }

  function TerminatedLines(pieces: seq<string>): (r: seq<string>)
    requires forall p | p in pieces :: '\n' !in p
    ensures forall line | line in r :: '\n' !in line
  {
    if pieces == [] then []
    else if |pieces| == 1 then if pieces[0] == "" then [] else pieces
    else
      assert pieces[0] in pieces;
      [StripCr(pieces[0])] + TerminatedLines(pieces[1..])
  }

  /** `text.lines()`: a final line needs no terminator, and only CR LF loses a carriage return. */
  function Lines(text: string): (r: seq<string>)
    ensures forall line | line in r :: '\n' !in line
  {
    TerminatedLines(Split(text, '\n'))
  }

  /** `line.split_once('=')` */
  function SplitOnce(line: string): Option<(string, string)> {
    if line == "" then None
    else if line[0] == '=' then Some(("", line[1..]))
    else
      match SplitOnce(line[1..])
      case None => None
      case Some((key, value)) => Some(([line[0]] + key, value))
  }

  // ---- What a line says

  datatype Rule = Rule(key: string, value: string) | Malformed

  /** Nothing for a blank line. */
  function ReadLine(line: string): seq<Rule> {
    if Trim(line) == "" then []
    else
      match SplitOnce(line)
      case None => [Malformed]
      case Some((key, value)) => [Rule(Trim(key), Trim(value))]
  }

  function ReadLines(lines: seq<string>): seq<Rule> {
    if lines == [] then [] else ReadLines(lines[..|lines| - 1]) + ReadLine(lines[|lines| - 1])
  }

  function Rules(text: string): seq<Rule> {
    ReadLines(Lines(text))
  }

  predicate Names(rule: Rule, target: string) {
    rule.Rule? && rule.key == target
  }

  function Matching(rules: seq<Rule>, target: string): (r: seq<Rule>)
    ensures forall x | x in r :: x in rules && Names(x, target)
  {
    if rules == [] then []
    else Matching(rules[..|rules| - 1], target)
         + if Names(rules[|rules| - 1], target) then [rules[|rules| - 1]] else []
  }

  /** The policy of a target: an error for a malformed line, a duplicate rule or an unknown mode. */
  function Answer(rules: seq<Rule>, target: string): Option<Mode> {
    var found := Matching(rules, target);
    if Malformed in rules || |found| > 1 then None
    else if |found| == 1 then ModeOf(found[0].value)
    else Some(Ask)
  }

  /** `tool_policy` */
  method ToolPolicy(text: string, target: string) returns (r: Option<Mode>)
    ensures r == Answer(Rules(text), target)
  {
    hide Trim, SplitOnce, ModeOf, ReadLine, Answer, Matching;
    var lines := Lines(text);
    var found: Option<Mode> := None;
    var i := 0;
    NoRules(target);
    while i < |lines|
      invariant 0 <= i <= |lines|
      invariant Answer(ReadLines(lines[..i]), target) == Some(if found.Some? then found.value else Ask)
      invariant found.None? <==> Matching(ReadLines(lines[..i]), target) == []
    {
      PolicyStep(ReadLines(lines[..i]), lines[i], target);
      ReadFrom(lines, i);
      ErrorSticks(ReadLines(lines[..i + 1]), ReadLines(lines[i + 1..]), target);
      if Trim(lines[i]) != "" {
        var split := SplitOnce(lines[i]);
        if split.None? {
          return None;
        }
        if Trim(split.value.0) == target {
          if found.Some? {
            return None;
          }
          found := ModeOf(Trim(split.value.1));
          if found.None? {
            return None;
          }
        }
      }
      i := i + 1;
    }
    assert lines[..i] == lines;
    r := Some(if found.Some? then found.value else Ask);
  }

  lemma NoRules(target: string)
    ensures ReadLines([]) == [] && Matching([], target) == [] && Answer([], target) == Some(Ask)
  {
  }

  /** What one more line does to the answer. */
  lemma PolicyStep(before: seq<Rule>, line: string, target: string)
    requires Answer(before, target).Some?
    ensures
      var after := before + ReadLine(line);
      if Trim(line) == "" then after == before
      else if SplitOnce(line).None? then Answer(after, target).None?
      else
        var value := Trim(SplitOnce(line).value.1);
        if Trim(SplitOnce(line).value.0) != target then
          Answer(after, target) == Answer(before, target) && Matching(after, target) == Matching(before, target)
        else
          Matching(after, target) != []
          && Answer(after, target) == if Matching(before, target) == [] then ModeOf(value) else None
  {
    hide Trim, SplitOnce, ModeOf, Matching;
    LineRead(line);
    if Trim(line) != "" {
      var rule := ReadLine(line)[0];
      assert ReadLine(line) == [rule];
      MatchingLast(before, rule, target);
    } else {
      assert before + [] == before;
    }
  }

  lemma ErrorSticks(a: seq<Rule>, b: seq<Rule>, target: string)
    ensures Answer(a, target).None? ==> Answer(a + b, target).None?
  {
    hide Matching;
    MatchingAppends(a, b, target);
  }

  lemma {:induction false} ReadLinesDistributes(a: seq<string>, b: seq<string>)
    ensures ReadLines(a + b) == ReadLines(a) + ReadLines(b)
  {
    hide ReadLine, ReadLines;
    NoRules("");
    if b == [] {
      assert a + b == a && ReadLines(a) + [] == ReadLines(a);
    } else {
      var before, last := b[..|b| - 1], b[|b| - 1];
      ReadLinesDistributes(a, before);
      LastRead(before, last);
      LastRead(a + before, last);
      assert b == before + [last] && a + b == (a + before) + [last];
    }
  }

  lemma LastRead(lines: seq<string>, line: string)
    ensures ReadLines(lines + [line]) == ReadLines(lines) + ReadLine(line)
  {
    hide ReadLine;
    assert (lines + [line])[..|lines|] == lines;
  }

  lemma SplitAt(lines: seq<string>, i: int)
    requires 0 <= i < |lines|
    ensures lines == lines[..i + 1] + lines[i + 1..] && lines[..i + 1] == lines[..i] + [lines[i]]
  {
  }

  lemma {:induction false} ReadFrom(lines: seq<string>, i: int)
    requires 0 <= i < |lines|
    ensures ReadLines(lines[..i + 1]) == ReadLines(lines[..i]) + ReadLine(lines[i])
    ensures ReadLines(lines) == ReadLines(lines[..i + 1]) + ReadLines(lines[i + 1..])
  {
    hide ReadLine, ReadLines;
    SplitAt(lines, i);
    ReadLinesDistributes(lines[..i + 1], lines[i + 1..]);
    LastRead(lines[..i], lines[i]);
  }

  lemma MatchingLast(rules: seq<Rule>, rule: Rule, target: string)
    ensures Matching(rules + [rule], target) == Matching(rules, target) + if Names(rule, target) then [rule] else []
  {
    assert (rules + [rule])[..|rules|] == rules;
  }

  lemma {:induction false} MatchingAppends(a: seq<Rule>, b: seq<Rule>, target: string)
    ensures Matching(a + b, target) == Matching(a, target) + Matching(b, target)
  {
    hide Matching;
    if b == [] {
      assert a + b == a;
      NoRules(target);
      assert Matching(a, target) + [] == Matching(a, target);
    } else {
      var before, last := b[..|b| - 1], b[|b| - 1];
      MatchingAppends(a, before, target);
      MatchingLast(before, last, target);
      MatchingLast(a + before, last, target);
      assert b == before + [last] && a + b == (a + before) + [last];
    }
  }

  lemma MatchingOne(rule: Rule, target: string)
    ensures Matching([rule], target) == if Names(rule, target) then [rule] else []
  {
    assert [rule][..0] == [];
  }

  // ---- Editing one rule

  /** `line.split_once('=').is_some_and(|(name, _)| name.trim() == target)` */
  predicate LineNames(line: string, target: string) {
    SplitOnce(line).Some? && Trim(SplitOnce(line).value.0) == target
  }

  function RuleLine(target: string, mode: Mode): string {
    target + " = " + Name(mode)
  }

  /** Some line names the target. */
  predicate Named(lines: seq<string>, target: string) {
    lines != [] && (Named(lines[..|lines| - 1], target) || LineNames(lines[|lines| - 1], target))
  }

  /** The edited lines: the first rule of the target replaced, its other rules dropped. */
  function Edited(lines: seq<string>, target: string, replacement: string): seq<string> {
    if lines == [] then []
    else
      var before := Edited(lines[..|lines| - 1], target, replacement);
      var line := lines[|lines| - 1];
      if !LineNames(line, target) then before + [line]
      else if Named(lines[..|lines| - 1], target) then before
      else before + [replacement]
  }

  function SetRule(lines: seq<string>, target: string, replacement: string): seq<string> {
    Edited(lines, target, replacement)
    + if Named(lines, target) then [] else [replacement]
  }

  lemma EditLine(lines: seq<string>, line: string, target: string, replacement: string)
    ensures Named(lines + [line], target) <==> Named(lines, target) || LineNames(line, target)
    ensures Edited(lines + [line], target, replacement)
            == Edited(lines, target, replacement)
               + if !LineNames(line, target) then [line] else if Named(lines, target) then [] else [replacement]
  {
    hide LineNames;
    var all := lines + [line];
    assert all[..|all| - 1] == lines;
  }

  /** `set_tool_policy_rule` */
  method SetToolPolicyRule(text: string, target: string, selected: Mode) returns (r: string)
    ensures r == Join(SetRule(Lines(text), target, RuleLine(target, selected)), '\n')
  {
    hide LineNames, Named, Edited, RuleLine, Lines, Join;
    var replacement := RuleLine(target, selected);
    var found := false;
    var lines: seq<string> := [];
    var old_ := Lines(text);
    var i := 0;
    NothingEdited(target, replacement);
    while i < |old_|
      invariant 0 <= i <= |old_|
      invariant found <==> Named(old_[..i], target)
      invariant lines == Edited(old_[..i], target, replacement)
    {
      EditLine(old_[..i], old_[i], target, replacement);
      assert old_[..i + 1] == old_[..i] + [old_[i]];
      if LineNames(old_[i], target) {
        if !found {
          lines := lines + [replacement];
          found := true;
        }
      } else {
        lines := lines + [old_[i]];
      }
      i := i + 1;
    }
    assert old_[..i] == old_;
    assert lines + [] == lines;
    if !found {
      lines := lines + [replacement];
    }
    r := Join(lines, '\n');
  }

  lemma NothingEdited(target: string, replacement: string)
    ensures !Named([], target) && Edited([], target, replacement) == []
  {
  }

  /** A target that a policy line can name. */
  predicate WellFormed(target: string) {
    '=' !in target && '\n' !in target && Trim(target) == target
  }

  /** White space at either end disappears. */
  lemma {:induction false} TrimStartEnd(text: string, w: char)
    requires IsWhiteSpace(w)
    ensures TrimStart(text + [w]) == (if TrimStart(text) == "" then "" else TrimStart(text) + [w])
  {
    if text == "" {
      assert (text + [w])[1..] == "";
    } else if IsWhiteSpace(text[0]) {
      TrimStartEnd(text[1..], w);
      assert (text + [w])[1..] == text[1..] + [w];
    }
  }

  lemma TrimAfter(text: string, w: char)
    requires IsWhiteSpace(w)
    ensures Trim(text + [w]) == Trim(text)
  {
    TrimStartEnd(text, w);
    var t := TrimStart(text);
    assert t != "" ==> (t + [w])[..|t|] == t;
  }

  lemma TrimBefore(text: string, w: char)
    requires IsWhiteSpace(w)
    ensures Trim([w] + text) == Trim(text)
  {
    assert ([w] + text)[1..] == text;
  }

  lemma {:induction false} SplitOnceAt(key: string, value: string)
    requires '=' !in key
    ensures SplitOnce(key + "=" + value) == Some((key, value))
  {
    var line := key + "=" + value;
    if key == "" {
      assert line[1..] == value;
    } else {
      assert forall c | c in key[1..] :: c in key;
      SplitOnceAt(key[1..], value);
      assert line[1..] == key[1..] + "=" + value && key == [key[0]] + key[1..];
      assert line[0] == key[0] && key[0] in key;
    }
  }

  /** The written rule line reads back as the rule. */
  lemma RuleLineReads(target: string, mode: Mode)
    requires WellFormed(target)
    ensures ReadLine(RuleLine(target, mode)) == [Rule(target, Name(mode))]
    ensures LineNames(RuleLine(target, mode), target) && ModeOf(Name(mode)) == Some(mode)
    ensures '\n' !in RuleLine(target, mode)
  {
    hide Trim, Name, ModeOf;
    var line := RuleLine(target, mode);
    NameIsTrimmed(mode);
    assert line == (target + " ") + "=" + (" " + Name(mode));
    assert target + " " == target + [' '] && " " + Name(mode) == [' '] + Name(mode);
    SplitOnceAt(target + " ", " " + Name(mode));
    TrimAfter(target, ' ');
    TrimBefore(Name(mode), ' ');
    LineNotBlank(line);
    hide SplitOnce;
  }

  /** Lower-case letters survive trimming. */
  lemma Lettered(name: string)
    requires name != "" && 'a' <= name[0] <= 'z' && 'a' <= name[|name| - 1] <= 'z'
    ensures Trim(name) == name
  {
  }

  lemma NameIsTrimmed(mode: Mode)
    ensures Trim(Name(mode)) == Name(mode) && '\n' !in Name(mode) && ModeOf(Name(mode)) == Some(mode)
  {
    match mode
    case Automatic => Lettered("automatic");
    case Ask => Lettered("ask");
    case Manual => Lettered("manual");
    case Disabled => Lettered("disabled");
  }

  /** A line with an equals sign is not blank. */
  lemma {:induction false} LineNotBlank(line: string)
    requires SplitOnce(line).Some?
    ensures Trim(line) != ""
  {
    EqualsKept(line);
    var t := TrimStart(line);
    EqualsStays(t);
  }

  lemma {:induction false} EqualsKept(line: string)
    requires SplitOnce(line).Some?
    ensures '=' in TrimStart(line)
  {
    if line[0] != '=' {
      EqualsKept(line[1..]);
      if !IsWhiteSpace(line[0]) { HasEquals(line); }
    }
  }

  lemma {:induction false} HasEquals(line: string)
    requires SplitOnce(line).Some?
    ensures '=' in line
  {
    if line[0] != '=' {
      HasEquals(line[1..]);
    }
  }

  lemma {:induction false} EqualsStays(t: string)
    requires '=' in t
    ensures '=' in TrimEnd(t)
  {
    if IsWhiteSpace(t[|t| - 1]) {
      EqualsStays(t[..|t| - 1]);
    }
  }

  // Line endings and blank lines say nothing

  lemma {:induction false} SplitOnceExtends(line: string, c: char)
    requires c != '='
    ensures SplitOnce(line + [c]) == match SplitOnce(line) case None => None case Some((k, v)) => Some((k, v + [c]))
  {
    if line == "" {
      assert (line + [c])[1..] == "";
    } else {
      SplitOnceExtends(line[1..], c);
      assert (line + [c])[1..] == line[1..] + [c];
    }
  }

  lemma StripReads(line: string)
    ensures ReadLine(StripCr(line)) == ReadLine(line)
  {
    if line != "" && line[|line| - 1] == '\r' {
      var rest := line[..|line| - 1];
      assert line == rest + ['\r'];
      TrimAfter(rest, '\r');
      SplitOnceExtends(rest, '\r');
      if SplitOnce(rest).Some? { TrimAfter(SplitOnce(rest).value.1, '\r'); }
    }
  }

  lemma ReadOne(line: string)
    ensures ReadLines([line]) == ReadLine(line)
  {
    hide ReadLine;
    assert [line][..0] == [];
  }

  lemma {:induction false} TerminatedReads(pieces: seq<string>)
    requires forall p | p in pieces :: '\n' !in p
    ensures ReadLines(TerminatedLines(pieces)) == ReadLines(pieces)
  {
    hide ReadLine, ReadLines;
    NoRules("");
    if |pieces| == 1 {
      assert pieces == [pieces[0]];
      ReadOne(pieces[0]);
      BlankReads();
    } else if pieces != [] {
      TerminatedReads(pieces[1..]);
      StripReads(pieces[0]);
      ReadOne(pieces[0]);
      ReadOne(StripCr(pieces[0]));
      ReadLinesDistributes([pieces[0]], pieces[1..]);
      ReadLinesDistributes([StripCr(pieces[0])], TerminatedLines(pieces[1..]));
      assert pieces == [pieces[0]] + pieces[1..];
    }
  }

  lemma BlankReads()
    ensures ReadLine("") == []
  {
  }

  lemma {:induction false} JoinSplits(lines: seq<string>)
    requires lines != [] && forall line | line in lines :: '\n' !in line
    ensures Split(Join(lines, '\n'), '\n') == lines
  {
    assert lines[0] in lines;
    if |lines| == 1 {
      SplitUnbroken(lines[0]);
    } else {
      JoinSplits(lines[1..]);
      SplitLine(lines[0], Join(lines[1..], '\n'), '\n');
    }
  }

  lemma {:induction false} SplitUnbroken(line: string)
    requires '\n' !in line
    ensures Split(line, '\n') == [line]
  {
    if line != "" {
      assert forall c | c in line[1..] :: c in line;
      assert line[0] in line && [line[0]] + line[1..] == line;
      SplitUnbroken(line[1..]);
    }
  }

  /** Joined lines read as the lines do. */
  lemma JoinedRules(lines: seq<string>)
    requires lines != [] && forall line | line in lines :: '\n' !in line
    ensures Rules(Join(lines, '\n')) == ReadLines(lines)
  {
    hide ReadLines;
    JoinSplits(lines);
    TerminatedReads(lines);
  }

  // What an edit changes

  lemma NamingLineReads(line: string, target: string)
    ensures LineNames(line, target) ==> ReadLine(line) == [Rule(target, Trim(SplitOnce(line).value.1))]
    ensures !LineNames(line, target) ==> Matching(ReadLine(line), target) == []
  {
    hide Trim, SplitOnce;
    if LineNames(line, target) {
      LineNotBlank(line);
    }
  }

  /** The edit keeps malformed lines and the rules of other targets, and leaves one rule of its own. */
  lemma {:induction false} EditedRules(lines: seq<string>, target: string, mode: Mode, other: string)
    requires WellFormed(target)
    ensures
      var edited := ReadLines(Edited(lines, target, RuleLine(target, mode)));
      && (Malformed in edited <==> Malformed in ReadLines(lines))
      && (other != target ==> Matching(edited, other) == Matching(ReadLines(lines), other))
      && Matching(edited, target) == if Named(lines, target) then [Rule(target, Name(mode))] else []
  {
    hide ReadLines, ReadLine, LineNames, RuleLine, WellFormed, Edited, Named, Matching;
    var replacement := RuleLine(target, mode);
    NothingEdited(target, replacement);
    NoRules(target);
    NoRules(other);
    if lines != [] {
      var before, line := lines[..|lines| - 1], lines[|lines| - 1];
      assert lines == before + [line];
      EditedRules(before, target, mode, other);
      EditLine(before, line, target, replacement);
      LastRead(before, line);
      NamingLineReads(line, target);
      RuleLineReads(target, mode);
      var kept := ReadLines(Edited(before, target, replacement));
      MatchingAppends(ReadLines(before), ReadLine(line), other);
      if !LineNames(line, target) {
        LastRead(Edited(before, target, replacement), line);
        MatchingAppends(kept, ReadLine(line), other);
        MatchingAppends(kept, ReadLine(line), target);
      } else {
        MatchingOne(ReadLine(line)[0], other);
        MatchingOne(Rule(target, Name(mode)), other);
        MatchingOne(Rule(target, Name(mode)), target);
        if !Named(before, target) {
          LastRead(Edited(before, target, replacement), replacement);
          MatchingAppends(kept, ReadLine(replacement), other);
          MatchingAppends(kept, ReadLine(replacement), target);
        } else {
          assert Edited(before, target, replacement) + [] == Edited(before, target, replacement);
        }
      }
    }
  }

  /** The text `SetToolPolicyRule` returns. */
  function EditedText(text: string, target: string, mode: Mode): string {
    Join(SetRule(Lines(text), target, RuleLine(target, mode)), '\n')
  }

  lemma {:induction false} EditedStaysOnLines(lines: seq<string>, target: string, replacement: string)
    requires '\n' !in replacement && forall line | line in lines :: '\n' !in line
    ensures forall line | line in Edited(lines, target, replacement) :: '\n' !in line
    ensures SetRule(lines, target, replacement) != []
    ensures forall line | line in SetRule(lines, target, replacement) :: '\n' !in line
  {
    hide LineNames;
    if lines != [] {
      EditedStaysOnLines(lines[..|lines| - 1], target, replacement);
    }
  }

  lemma SetRuleReads(text: string, target: string, mode: Mode, other: string)
    requires WellFormed(target)
    ensures
      var edited := Rules(EditedText(text, target, mode));
      && (Malformed in edited <==> Malformed in Rules(text))
      && (other != target ==> Matching(edited, other) == Matching(Rules(text), other))
      && Matching(edited, target) == [Rule(target, Name(mode))]
  {
    hide ReadLines, ReadLine, LineNames, RuleLine, WellFormed, Edited, Named, Matching, Lines, Join;
    var lines, replacement := Lines(text), RuleLine(target, mode);
    RuleLineReads(target, mode);
    EditedStaysOnLines(lines, target, replacement);
    EditedRules(lines, target, mode, other);
    JoinedRules(SetRule(lines, target, replacement));
    var edited := Edited(lines, target, replacement);
    if Named(lines, target) {
      assert edited + [] == edited;
    } else {
      LastRead(edited, replacement);
      MatchingAppends(ReadLines(edited), ReadLine(replacement), other);
      MatchingAppends(ReadLines(edited), ReadLine(replacement), target);
      MatchingOne(Rule(target, Name(mode)), other);
      MatchingOne(Rule(target, Name(mode)), target);
    }
  }

  /** Set then get: unless some line is malformed, the target has the chosen mode. */
  lemma SetThenGet(text: string, target: string, mode: Mode)
    requires WellFormed(target)
    ensures Answer(Rules(EditedText(text, target, mode)), target)
            == if Malformed in Rules(text) then None else Some(mode)
  {
    hide Matching, EditedText, Rules;
    SetRuleReads(text, target, mode, target);
    RuleLineReads(target, mode);
  }

  /** Setting one target never changes the answer for another one, whatever the text. */
  lemma SetKeepsOthers(text: string, target: string, mode: Mode, other: string)
    requires WellFormed(target) && other != target
    ensures Answer(Rules(EditedText(text, target, mode)), other) == Answer(Rules(text), other)
  {
    hide Matching, EditedText, Rules;
    SetRuleReads(text, target, mode, other);
  }

  lemma {:induction false} SplitKeyKept(line: string)
    requires SplitOnce(line).Some?
    ensures '=' !in SplitOnce(line).value.0 && forall c | c in SplitOnce(line).value.0 :: c in line
  {
    if line[0] != '=' {
      SplitKeyKept(line[1..]);
    }
  }

  lemma {:induction false} TrimEndFixed(text: string)
    ensures TrimStart(text) == text ==> TrimStart(TrimEnd(text)) == TrimEnd(text)
    ensures TrimEnd(TrimEnd(text)) == TrimEnd(text)
  {
  }

  lemma {:induction false} TrimStartChars(text: string)
    ensures forall c | c in TrimStart(text) :: c in text
    ensures TrimStart(TrimStart(text)) == TrimStart(text)
  {
    if text != "" && IsWhiteSpace(text[0]) {
      TrimStartChars(text[1..]);
    }
  }

  lemma KeysAreWellFormed(line: string)
    requires '\n' !in line && SplitOnce(line).Some?
    ensures WellFormed(Trim(SplitOnce(line).value.0))
  {
    var key := SplitOnce(line).value.0;
    SplitKeyKept(line);
    TrimStartChars(key);
    TrimEndFixed(TrimStart(key));
    assert forall c | c in Trim(key) :: c in TrimStart(key);
  }

  lemma {:induction false} RuleKeysAreWellFormed(lines: seq<string>, rule: Rule)
    requires rule in ReadLines(lines) && rule.Rule? && forall line | line in lines :: '\n' !in line
    ensures WellFormed(rule.key)
  {
    hide WellFormed, Trim, SplitOnce;
    var line := lines[|lines| - 1];
    if rule in ReadLines(lines[..|lines| - 1]) {
      RuleKeysAreWellFormed(lines[..|lines| - 1], rule);
    } else {
      assert line in lines;
      KeysAreWellFormed(line);
    }
  }

  /** A target that is not well formed can never be given another mode than Ask: set-then-get works from
      the empty text exactly for the well-formed targets. */
  lemma SettableTargets(target: string)
    ensures Answer(Rules(EditedText("", target, Automatic)), target) == Some(Automatic) <==> WellFormed(target)
  {
    hide EditedText, WellFormed, ReadLines, Lines;
    var text := EditedText("", target, Automatic);
    if Answer(Rules(text), target) == Some(Automatic) {
      var found := Matching(Rules(text), target);
      assert found[0] in found;
      RuleKeysAreWellFormed(Lines(text), found[0]);
    }
    if WellFormed(target) {
      SetThenGet("", target, Automatic);
      EmptyTextReads();
    }
  }

  lemma EmptyTextReads()
    ensures Rules("") == []
  {
    NoRules("");
    assert Lines("") == [];
  }

  lemma {:induction false} EqualsInTrimStart(text: string)
    requires '=' in text
    ensures '=' in TrimStart(text)
  {
    if IsWhiteSpace(text[0]) {
      EqualsInTrimStart(text[1..]);
    }
  }

  lemma NotAMode(value: string)
    requires '=' in value
    ensures ModeOf(Trim(value)).None?
  {
    EqualsInTrimStart(value);
    EqualsStays(TrimStart(value));
    assert '=' !in "automatic" && '=' !in "ask" && '=' !in "manual" && '=' !in "disabled";
  }

  lemma {:induction false} SplitOnceKeeps(line: string, more: string)
    requires '=' in line
    ensures SplitOnce(line).Some?
    ensures SplitOnce(line + more) == Some((SplitOnce(line).value.0, SplitOnce(line).value.1 + more))
  {
    assert (line + more)[1..] == line[1..] + more;
    if line[0] != '=' {
      SplitOnceKeeps(line[1..], more);
    }
  }

  /** Whatever comes before ` = automatic`, the line is a rule, and its mode is Automatic or no mode at all. */
  lemma AnyRuleLine(piece: string)
    requires '\n' !in piece
    ensures
      var line := piece + " = automatic";
      '\n' !in line && |ReadLine(line)| == 1 && ReadLine(line)[0].Rule? && WellFormed(ReadLine(line)[0].key)
      && ModeOf(ReadLine(line)[0].value) in {None, Some(Automatic)}
  {
    hide Trim, WellFormed, ModeOf;
    var line := piece + " = automatic";
    NameIsTrimmed(Automatic);
    if '=' in piece {
      SplitOnceKeeps(piece, " = automatic");
      NotAMode(SplitOnce(piece).value.1 + " = automatic");
    } else {
      assert line == (piece + " ") + "=" + " automatic" && " automatic" == [' '] + "automatic";
      SplitOnceAt(piece + " ", " automatic");
      TrimBefore("automatic", ' ');
    }
    LineNotBlank(line);
    KeysAreWellFormed(line);
  }

  /** The last of several pieces grows. */
  function Extended(pieces: seq<string>, more: string): seq<string>
    requires pieces != []
  {
    pieces[..|pieces| - 1] + [pieces[|pieces| - 1] + more]
  }

  lemma SplitStep(text: string)
    requires text != ""
    ensures
      var rest := Split(text[1..], '\n');
      Split(text, '\n') == if text[0] == '\n' then [""] + rest else [[text[0]] + rest[0]] + rest[1..]
  {
  }

  lemma ExtendedBehind(front: string, pieces: seq<string>, more: string)
    requires pieces != []
    ensures Extended([front] + pieces, more) == [front] + Extended(pieces, more)
  {
    var whole := [front] + pieces;
    assert whole[..|whole| - 1] == [front] + pieces[..|pieces| - 1];
  }

  lemma ExtendedFirst(c: char, pieces: seq<string>, more: string)
    requires pieces != []
    ensures
      var grown := Extended(pieces, more);
      Extended([[c] + pieces[0]] + pieces[1..], more) == [[c] + grown[0]] + grown[1..]
  {
    var grown := Extended(pieces, more);
    if |pieces| == 1 {
      assert [c] + pieces[0] + more == [c] + (pieces[0] + more);
    } else {
      ExtendedBehind([c] + pieces[0], pieces[1..], more);
      ExtendedBehind(pieces[0], pieces[1..], more);
      assert pieces == [pieces[0]] + pieces[1..];
    }
  }

  lemma {:induction false} SplitLast(text: string, more: string)
    requires '\n' !in more
    ensures Split(text + more, '\n') == Extended(Split(text, '\n'), more)
  {
    hide Split, Extended;
    if text == "" {
      SplitNothing(more);
      assert text + more == more;
    } else {
      SplitLast(text[1..], more);
      assert (text + more)[1..] == text[1..] + more;
      var rest := Split(text[1..], '\n');
      SplitStep(text);
      SplitStep(text + more);
      ExtendedBehind("", rest, more);
      ExtendedFirst(text[0], rest, more);
    }
  }

  lemma SplitNothing(more: string)
    requires '\n' !in more
    ensures Split(more, '\n') == [more] == Extended(Split("", '\n'), more)
  {
    SplitUnbroken(more);
    assert "" + more == more;
  }

  lemma EmptyTextHasNoLines()
    ensures Lines("") == []
  {
  }

  /** Setting a target in the empty text leaves a last rule whose mode is Automatic or no mode. */
  lemma FreshSetting(target: string)
    ensures
      var rules := Rules(EditedText("", target, Automatic));
      exists front, rule :: rules == front + [rule] && rule.Rule? && WellFormed(rule.key)
        && ModeOf(rule.value) in {None, Some(Automatic)} && rule in rules
  {
    hide ReadLine, ReadLines, WellFormed, ModeOf, Lines;
    var line := RuleLine(target, Automatic);
    EmptyTextHasNoLines();
    NothingEdited(target, line);
    assert SetRule([], target, line) == [] + [line] == [line];
    assert EditedText("", target, Automatic) == line == target + " = automatic";
    var pieces := Split(target, '\n');
    var last := pieces[|pieces| - 1];
    assert last in pieces;
    SplitLast(target, " = automatic");
    AnyRuleLine(last);
    LinesRead(line);
    LastRead(pieces[..|pieces| - 1], last + " = automatic");
    var rule := ReadLine(last + " = automatic")[0];
    assert ReadLine(last + " = automatic") == [rule];
    assert Rules(line) == ReadLines(pieces[..|pieces| - 1]) + [rule];
  }

  lemma LinesRead(text: string)
    ensures Rules(text) == ReadLines(Split(text, '\n'))
  {
    TerminatedReads(Split(text, '\n'));
  }

  /** Setting a target leaves every other answer alone, in every text, exactly for the well-formed targets. */
  lemma SetIsolatesExactly(target: string)
    ensures WellFormed(target) <==>
      forall text, mode, other | other != target ::
        Answer(Rules(EditedText(text, target, mode)), other) == Answer(Rules(text), other)
  {
    hide WellFormed, EditedText, Rules, ModeOf, Matching;
    if WellFormed(target) {
      forall text, mode, other | other != target
        ensures Answer(Rules(EditedText(text, target, mode)), other) == Answer(Rules(text), other)
      {
        SetKeepsOthers(text, target, mode, other);
      }
    } else {
      var rules := Rules(EditedText("", target, Automatic));
      FreshSetting(target);
      var front, rule :| rules == front + [rule] && rule.Rule? && WellFormed(rule.key)
        && ModeOf(rule.value) in {None, Some(Automatic)} && rule in rules;
      MatchingLast(front, rule, rule.key);
      EmptyTextReads();
      NoRules(rule.key);
      assert Answer(Rules(EditedText("", target, Automatic)), rule.key) != Answer(Rules(""), rule.key);
    }
  }

  /** A written rule means what it says, and a target without a rule asks. */
  lemma WrittenRules(target: string)
    requires WellFormed(target)
    ensures Answer(Rules(target + " = automatic"), target) == Some(Automatic)
    ensures Answer(Rules(target + " = ask"), target) == Some(Ask)
    ensures Answer(Rules(target + " = manual"), target) == Some(Manual)
    ensures Answer(Rules(target + " = disabled"), target) == Some(Disabled)
    ensures Answer(Rules(""), target) == Some(Ask)
  {
    hide WellFormed, EditedText, Rules, Matching;
    NewText(target, Automatic);
    assert target + " = " + "automatic" == target + " = automatic";
    NewText(target, Ask);
    assert target + " = " + "ask" == target + " = ask";
    NewText(target, Manual);
    assert target + " = " + "manual" == target + " = manual";
    NewText(target, Disabled);
    assert target + " = " + "disabled" == target + " = disabled";
    SetThenGet("", target, Automatic);
    SetThenGet("", target, Ask);
    SetThenGet("", target, Manual);
    SetThenGet("", target, Disabled);
    EmptyTextReads();
    NoRules(target);
  }

  lemma NewText(target: string, mode: Mode)
    ensures EditedText("", target, mode) == target + " = " + Name(mode)
  {
    hide Lines;
    EmptyTextHasNoLines();
    NothingEdited(target, RuleLine(target, mode));
    assert SetRule([], target, RuleLine(target, mode)) == [] + [RuleLine(target, mode)] == [RuleLine(target, mode)];
  }

  // ---- append_missing_local_http_defaults

  datatype Default = Default(target: string, mode: Mode)

  /** `updated` with one more line. */
  function AppendLine(text: string, line: string): string {
    (if text != "" && text[|text| - 1] != '\n' then text + "\n" else text) + line
  }

  function Filled(text: string, tools: seq<Default>): string {
    if tools == [] then text
    else
      var before, tool := Filled(text, tools[..|tools| - 1]), tools[|tools| - 1];
      if Named(Lines(text), tool.target) then before else AppendLine(before, RuleLine(tool.target, tool.mode))
  }

  /** Appends a rule for every registered tool the original text does not name. */
  method AppendMissingDefaults(text: string, tools: seq<Default>) returns (updated: string)
    ensures updated == Filled(text, tools)
  {
    hide Lines, Named, RuleLine, LineNames;
    updated := text;
    var i := 0;
    while i < |tools|
      invariant 0 <= i <= |tools| && updated == Filled(text, tools[..i])
    {
      assert tools[..i + 1][..i] == tools[..i];
      var set_ := AnyNames(Lines(text), tools[i].target);
      if !set_ {
        if updated != "" && updated[|updated| - 1] != '\n' {
          updated := updated + "\n";
        }
        updated := updated + RuleLine(tools[i].target, tools[i].mode);
      }
      i := i + 1;
    }
    assert tools[..i] == tools;
  }

  method AnyNames(lines: seq<string>, target: string) returns (any: bool)
    ensures any == Named(lines, target)
  {
    any := false;
    var i := 0;
    while i < |lines|
      invariant 0 <= i <= |lines| && any == Named(lines[..i], target)
    {
      assert lines[..i + 1][..i] == lines[..i];
      any := any || LineNames(lines[i], target);
      i := i + 1;
    }
    assert lines[..i] == lines;
  }

  lemma {:induction false} SplitAppends(text: string, line: string)
    requires '\n' !in line
    ensures Split(text + "\n" + line, '\n') == Split(text, '\n') + [line]
  {
    hide Split;
    var all := text + "\n" + line;
    SplitUnbroken(line);
    SplitUnbroken("");
    SplitStep(all);
    if text == "" {
      assert all[1..] == line && [""] + [line] == [""] + [line];
    } else {
      SplitAppends(text[1..], line);
      assert all[1..] == text[1..] + "\n" + line;
      SplitStep(text);
      var rest := Split(text[1..], '\n');
      assert (rest + [line])[1..] == rest[1..] + [line];
      assert [""] + (rest + [line]) == ([""] + rest) + [line];
    }
  }

  lemma {:induction false} SplitEnds(text: string)
    requires text != "" && text[|text| - 1] == '\n'
    ensures Split(text, '\n') == Split(text[..|text| - 1], '\n') + [""]
  {
    assert text == text[..|text| - 1] + "\n" + "";
    SplitAppends(text[..|text| - 1], "");
  }

  /** The appended line is one more line, whatever the text ended with. */
  lemma AppendedReads(text: string, line: string)
    requires '\n' !in line
    ensures Rules(AppendLine(text, line)) == Rules(text) + ReadLine(line)
  {
    hide ReadLines, ReadLine, TerminatedLines;
    TerminatedReads(Split(text, '\n'));
    TerminatedReads(Split(AppendLine(text, line), '\n'));
    NoRules("");
    BlankReads();
    if text == "" {
      SplitUnbroken(line);
      ReadOne(line);
      ReadOne("");
      assert AppendLine(text, line) == line;
    } else if text[|text| - 1] == '\n' {
      var shorter := text[..|text| - 1];
      SplitEnds(text);
      SplitAppends(shorter, line);
      assert AppendLine(text, line) == shorter + "\n" + line;
      LastRead(Split(shorter, '\n'), line);
      LastRead(Split(shorter, '\n'), "");
    } else {
      SplitAppends(text, line);
      LastRead(Split(text, '\n'), line);
    }
  }

  predicate WellFormedTools(tools: seq<Default>) {
    forall t | t in tools :: WellFormed(t.target)
  }

  /** The rules the defaults add: one for every tool that the text does not name. */
  function Added(text: string, tools: seq<Default>): seq<Rule> {
    if tools == [] then []
    else
      var tool := tools[|tools| - 1];
      Added(text, tools[..|tools| - 1])
      + if Named(Lines(text), tool.target) then [] else [Rule(tool.target, Name(tool.mode))]
  }

  lemma {:induction false} FilledReads(text: string, tools: seq<Default>)
    requires WellFormedTools(tools)
    ensures Rules(Filled(text, tools)) == Rules(text) + Added(text, tools)
  {
    hide Rules, ReadLine, Lines, Named, RuleLine, AppendLine, WellFormed;
    if tools == [] {
      assert Rules(text) + [] == Rules(text);
    } else {
      var tool := tools[|tools| - 1];
      FilledReads(text, tools[..|tools| - 1]);
      RuleLineReads(tool.target, tool.mode);
      AppendedReads(Filled(text, tools[..|tools| - 1]), RuleLine(tool.target, tool.mode));
    }
  }

  lemma {:induction false} NamedIsMatching(lines: seq<string>, target: string)
    ensures Named(lines, target) <==> Matching(ReadLines(lines), target) != []
  {
    hide ReadLines, ReadLine, Matching, LineNames;
    NoRules(target);
    if lines != [] {
      var before, line := lines[..|lines| - 1], lines[|lines| - 1];
      assert lines == before + [line];
      NamedIsMatching(before, target);
      LastRead(before, line);
      NamingLineReads(line, target);
      MatchingAppends(ReadLines(before), ReadLine(line), target);
      if LineNames(line, target) { MatchingOne(ReadLine(line)[0], target); }
    }
  }

  predicate Registered(tools: seq<Default>, target: string) {
    exists i | 0 <= i < |tools| :: tools[i].target == target
  }

  lemma {:induction false} AddedNames(text: string, tools: seq<Default>, target: string)
    ensures Malformed !in Added(text, tools)
    ensures Matching(Added(text, tools), target) != [] ==>
      !Named(Lines(text), target) && Registered(tools, target)
    ensures !Named(Lines(text), target) && Registered(tools, target) ==>
      Matching(Added(text, tools), target) != []
  {
    hide Lines, Named, Matching;
    NoRules(target);
    if tools != [] {
      var before, tool := tools[..|tools| - 1], tools[|tools| - 1];
      AddedNames(text, before, target);
      var rule := Rule(tool.target, Name(tool.mode));
      MatchingOne(rule, target);
      MatchingAppends(Added(text, before), [rule], target);
      assert Added(text, before) + [] == Added(text, before);
      assert Registered(tools, target) <==> Registered(before, target) || tool.target == target by {
        if i :| 0 <= i < |tools| && tools[i].target == target && i < |tools| - 1 {
          assert before[i].target == target;
        }
      }
    }
  }

  /** Filling in the defaults never changes the answer for a target the text already names, nor for one
      that is not a registered tool. */
  lemma {:induction false} FillKeepsOthers(text: string, tools: seq<Default>, target: string)
    requires WellFormedTools(tools) && (Named(Lines(text), target) || !Registered(tools, target))
    ensures Answer(Rules(Filled(text, tools)), target) == Answer(Rules(text), target)
  {
    hide Lines, Named, Matching, Rules, Filled, WellFormed;
    FilledReads(text, tools);
    AddedNames(text, tools, target);
    MatchingAppends(Rules(text), Added(text, tools), target);
    assert Matching(Rules(text), target) + [] == Matching(Rules(text), target);
  }

  predicate DistinctTools(tools: seq<Default>) {
    forall i, k | 0 <= i < k < |tools| :: tools[i].target != tools[k].target
  }

  lemma LastIsNew(tools: seq<Default>)
    requires DistinctTools(tools) && tools != []
    ensures !Registered(tools[..|tools| - 1], tools[|tools| - 1].target)
  {
    var front := tools[..|tools| - 1];
    forall i | 0 <= i < |front| ensures front[i].target != tools[|tools| - 1].target {
      assert tools[i].target != tools[|tools| - 1].target;
    }
  }

  lemma {:induction false} AddedOnce(text: string, tools: seq<Default>, tool: Default)
    requires DistinctTools(tools) && !Named(Lines(text), tool.target) && tool in tools
    ensures Matching(Added(text, tools), tool.target) == [Rule(tool.target, Name(tool.mode))]
  {
    hide Lines, Named, Name, Matching;
    var front, last := tools[..|tools| - 1], tools[|tools| - 1];
    var rule := Rule(last.target, Name(last.mode));
    MatchingOne(rule, tool.target);
    MatchingAppends(Added(text, front), [rule], tool.target);
    assert Added(text, front) + [] == Added(text, front);
    if last == tool {
      AddedNames(text, front, tool.target);
      LastIsNew(tools);
    } else {
      var i :| 0 <= i < |tools| && tools[i] == tool;
      assert front[i] == tool && tools[i].target != tools[|tools| - 1].target;
      AddedOnce(text, front, tool);
    }
  }

  /** A registered tool the text does not name gets its own default, unless a line is malformed. */
  lemma FillGivesDefault(text: string, tools: seq<Default>, tool: Default)
    requires WellFormedTools(tools) && DistinctTools(tools) && tool in tools && !Named(Lines(text), tool.target)
    ensures Answer(Rules(Filled(text, tools)), tool.target) == if Malformed in Rules(text) then None else Some(tool.mode)
  {
    hide Filled, Lines, Named, Added, WellFormed, Rules, Matching;
    FilledReads(text, tools);
    AddedOnce(text, tools, tool);
    AddedNames(text, tools, tool.target);
    NamedInRules(text, tool.target);
    MatchingAppends(Rules(text), Added(text, tools), tool.target);
    assert [] + [Rule(tool.target, Name(tool.mode))] == [Rule(tool.target, Name(tool.mode))];
  }

  lemma NamedInRules(text: string, target: string)
    ensures Named(Lines(text), target) <==> Matching(Rules(text), target) != []
  {
    NamedIsMatching(Lines(text), target);
  }

  lemma {:induction false} NothingMissing(text: string, tools: seq<Default>)
    requires forall t | t in tools :: Named(Lines(text), t.target)
    ensures Filled(text, tools) == text
  {
    hide Lines, Named;
    if tools != [] {
      assert tools[|tools| - 1] in tools;
      NothingMissing(text, tools[..|tools| - 1]);
    }
  }

  /** Filling in the defaults twice is filling them in once. */
  lemma FillIsIdempotent(text: string, tools: seq<Default>)
    requires WellFormedTools(tools)
    ensures Filled(Filled(text, tools), tools) == Filled(text, tools)
  {
    hide Lines, Named, Matching, Filled, WellFormed, ReadLines;
    var filled := Filled(text, tools);
    FilledReads(text, tools);
    forall t | t in tools ensures Named(Lines(filled), t.target) {
      assert Registered(tools, t.target);
      NamedIsMatching(Lines(filled), t.target);
      NamedIsMatching(Lines(text), t.target);
      AddedNames(text, tools, t.target);
      MatchingAppends(Rules(text), Added(text, tools), t.target);
    }
    NothingMissing(filled, tools);
  }

  // ---- AgentDefaults::validate, the part about policy lines

  /** `key.split("::").count()` */
  function Pieces(key: string): nat {
    if |key| < 2 then 1
    else if key[0] == ':' && key[1] == ':' then 1 + Pieces(key[2..])
    else Pieces(key[1..])
  }

  predicate KeyCharacter(c: char) {
    '0' <= c <= '9' || 'A' <= c <= 'Z' || 'a' <= c <= 'z' || c in "._:-"
  }

  predicate ValidLine(line: string) {
    && ByteLength(line) <= 256 && SplitOnce(line).Some?
    && Pieces(Trim(SplitOnce(line).value.0)) == 2
    && (forall c | c in Trim(SplitOnce(line).value.0) :: KeyCharacter(c))
    && ModeOf(Trim(SplitOnce(line).value.1)).Some?
  }

  /** The rules as a map, if there is no malformed line and no key occurs twice. */
  function RuleMap(rules: seq<Rule>): Option<map<string, string>> {
    if rules == [] then Some(map[])
    else
      match RuleMap(rules[..|rules| - 1])
      case None => None
      case Some(before) =>
        match rules[|rules| - 1]
        case Malformed => None
        case Rule(key, value) => if key in before then None else Some(before[key := value])
  }

  /** Every non-blank line is valid, no key occurs twice and there are at most 128 rules. */
  predicate ValidRules(lines: seq<string>) {
    && (forall k | 0 <= k < |lines| :: Trim(lines[k]) == "" || ValidLine(lines[k]))
    && RuleMap(ReadLines(lines)).Some? && |RuleMap(ReadLines(lines)).value| <= 128
  }

  lemma MapGrows(rules: seq<Rule>, rule: Rule)
    requires RuleMap(rules).Some? && rule.Rule?
    ensures RuleMap(rules + [rule])
            == if rule.key in RuleMap(rules).value then None else Some(RuleMap(rules).value[rule.key := rule.value])
  {
    assert (rules + [rule])[..|rules|] == rules;
  }

  lemma {:induction false} MapPrefix(a: seq<Rule>, b: seq<Rule>)
    ensures RuleMap(a).None? ==> RuleMap(a + b).None?
  {
    if b == [] {
      assert a + b == a;
    } else {
      MapPrefix(a, b[..|b| - 1]);
      assert (a + b)[..|a + b| - 1] == a + b[..|b| - 1];
    }
  }

  /** Rules that form a map are never an error for any target: the answer is the lookup, Ask by default. */
  lemma {:induction false} AnswerIsLookup(rules: seq<Rule>, target: string)
    requires RuleMap(rules).Some?
    ensures
      var unique := RuleMap(rules).value;
      && (target in unique <==> Matching(rules, target) != [])
      && Answer(rules, target) == if target in unique then ModeOf(unique[target]) else Some(Ask)
  {
    hide ModeOf;
    if rules != [] {
      AnswerIsLookup(rules[..|rules| - 1], target);
    }
  }

  /** Validated policy text: never an error, and every answer is the unique-key lookup. */
  method ValidateRules(text: string) returns (ok: bool, unique: map<string, string>)
    ensures ok <==> ValidRules(Lines(text))
    ensures ok ==> forall target ::
      Answer(Rules(text), target) == (if target in unique then ModeOf(unique[target]) else Some(Ask))
      && Answer(Rules(text), target).Some?
  {
    hide ReadLine, ReadLines, Lines, Answer, Matching, SplitOnce, Trim, ModeOf, RuleMap;
    var lines := Lines(text);
    unique := map[];
    var i := 0;
    NoRules("");
    EmptyMap();
    while i < |lines|
      invariant 0 <= i <= |lines| && RuleMap(ReadLines(lines[..i])) == Some(unique)
      invariant forall k | 0 <= k < i :: Trim(lines[k]) == "" || ValidLine(lines[k])
      invariant forall key | key in unique :: ModeOf(unique[key]).Some?
    {
      ReadFrom(lines, i);
      LineRead(lines[i]);
      if Trim(lines[i]) != "" {
        if !ValidLine(lines[i]) {
          return false, unique;
        }
        var key, value := Trim(SplitOnce(lines[i]).value.0), Trim(SplitOnce(lines[i]).value.1);
        MapGrows(ReadLines(lines[..i]), Rule(key, value));
        MapPrefix(ReadLines(lines[..i + 1]), ReadLines(lines[i + 1..]));
        if key in unique {
          return false, unique;
        }
        unique := unique[key := value];
      } else {
        assert ReadLines(lines[..i]) + [] == ReadLines(lines[..i]);
      }
      i := i + 1;
    }
    assert lines[..i] == lines;
    ok := |unique| <= 128;
    forall target ensures Answer(Rules(text), target) == if target in unique then ModeOf(unique[target]) else Some(Ask) {
      AnswerIsLookup(ReadLines(lines), target);
    }
  }

  lemma EmptyMap()
    ensures RuleMap([]) == Some(map[])
  {
  }

  lemma LineRead(line: string)
    ensures ReadLine(line) == if Trim(line) == "" then []
                              else if SplitOnce(line).None? then [Malformed]
                              else [Rule(Trim(SplitOnce(line).value.0), Trim(SplitOnce(line).value.1))]
  {
  }
}
