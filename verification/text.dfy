/** Text operations of the Rust standard library that several components rely on. */
module Text {
  import opened Common

  // ---- Decimal numerals

  const DIGITS := "0123456789"

  predicate IsDigit(c: char) {
    '0' <= c <= '9'
  }

  function Decimal(n: nat): (r: string)
    ensures |r| > 0 && forall c | c in r :: c in DIGITS
  {
    if n < 10 then [DIGITS[n]] else Decimal(n / 10) + [DIGITS[n % 10]]
  }

  /** The number a digit string denotes. */
  function Value(text: string): int {
    if text == "" then 0 else 10 * Value(text[..|text| - 1]) + (text[|text| - 1] as int - '0' as int)
  }

  lemma {:induction false} ValueOfDecimal(n: nat)
    ensures Value(Decimal(n)) == n && forall c | c in Decimal(n) :: IsDigit(c)
  {
    if n >= 10 {
      ValueOfDecimal(n / 10);
      assert Decimal(n)[..|Decimal(n)| - 1] == Decimal(n / 10);
    }
  }

  // ---- Lines

  /** `text.split(c)`: always at least one piece. */
  function Split(text: string, c: char): (r: seq<string>)
    ensures r != [] && forall line | line in r :: c !in line
  {
    if text == "" then [""]
    else
      var rest := Split(text[1..], c);
      if text[0] == c then [""] + rest else [[text[0]] + rest[0]] + rest[1..]
  }

  /** The pieces separated by the character. */
  function Join(lines: seq<string>, c: char): string {
    if lines == [] then "" else if |lines| == 1 then lines[0] else lines[0] + [c] + Join(lines[1..], c)
  }

  /** Each line with its terminator. */
  function Unlines(lines: seq<string>): string {
    if lines == [] then "" else lines[0] + "\n" + Unlines(lines[1..])
  }

  lemma NoLines()
    ensures Unlines([]) == ""
  {
  }

  lemma UnlinesFirst(line: string, rest: seq<string>)
    ensures Unlines([line] + rest) == line + "\n" + Unlines(rest)
  {
    assert ([line] + rest)[1..] == rest;
  }

  lemma {:induction false} UnlinesDistributes(a: seq<string>, b: seq<string>)
    ensures Unlines(a + b) == Unlines(a) + Unlines(b)
  {
    hide Unlines;
    NoLines();
    if a == [] {
      assert a + b == b && "" + Unlines(b) == Unlines(b);
    } else {
      UnlinesDistributes(a[1..], b);
      UnlinesFirst(a[0], a[1..]);
      UnlinesFirst(a[0], a[1..] + b);
      assert a == [a[0]] + a[1..] && a + b == [a[0]] + (a[1..] + b);
      assert a[0] + "\n" + (Unlines(a[1..]) + Unlines(b)) == a[0] + "\n" + Unlines(a[1..]) + Unlines(b);
    }
  }

  lemma {:induction false} JoinInvertsSplit(text: string, c: char)
    ensures Join(Split(text, c), c) == text
  {
    if text != "" {
      JoinInvertsSplit(text[1..], c);
      var rest := Split(text[1..], c);
      if text[0] == c {
        assert ([""] + rest)[1..] == rest;
      } else {
        assert ([[text[0]] + rest[0]] + rest[1..])[1..] == rest[1..];
      }
    }
  }

  lemma {:induction false} SplitLine(line: string, text: string, c: char)
    requires c !in line
    ensures Split(line + [c] + text, c) == [line] + Split(text, c)
  {
    var whole := line + [c] + text;
    if line == "" {
      assert whole[1..] == text;
    } else {
      assert forall x | x in line[1..] :: x in line;
      SplitLine(line[1..], text, c);
      assert whole[1..] == line[1..] + [c] + text && line[0] in line;
      assert ([line[1..]] + Split(text, c))[1..] == Split(text, c) && [line[0]] + line[1..] == line;
    }
  }

  lemma {:induction false} SplitInvertsUnlines(lines: seq<string>)
    requires forall line | line in lines :: '\n' !in line
    ensures Split(Unlines(lines), '\n') == lines + [""]
  {
    if lines != [] {
      assert lines[0] in lines;
      SplitInvertsUnlines(lines[1..]);
      SplitLine(lines[0], Unlines(lines[1..]), '\n');
      assert lines[0] + "\n" + Unlines(lines[1..]) == lines[0] + ['\n'] + Unlines(lines[1..]);
    }
  }

  // ---- Line endings

  /** `replace("\r\n", "\n")` */
  function ReplaceCrLf(text: string): string {
    if text == "" then ""
    else if |text| > 1 && text[0] == '\r' && text[1] == '\n' then "\n" + ReplaceCrLf(text[2..])
    else [text[0]] + ReplaceCrLf(text[1..])
  }

  /** `replace('\r', "\n")` */
  function ReplaceCr(text: string): (r: string)
    ensures '\r' !in r
  {
    if text == "" then "" else [if text[0] == '\r' then '\n' else text[0]] + ReplaceCr(text[1..])
  }

  function Normalized(text: string): string {
    ReplaceCr(ReplaceCrLf(text))
  }

  /** Every line ending, CR LF, CR or LF, becomes one LF and nothing else changes. */
  function Unified(text: string): string {
    if text == "" then ""
    else if text[0] == '\r' then
      "\n" + if |text| > 1 && text[1] == '\n' then Unified(text[2..]) else Unified(text[1..])
    else [text[0]] + Unified(text[1..])
  }

  lemma {:induction false} NormalizedIsUnified(text: string)
    ensures Normalized(text) == Unified(text)
  {
    if text != "" {
      var once := ReplaceCrLf(text);
      if |text| > 1 && text[0] == '\r' && text[1] == '\n' {
        NormalizedIsUnified(text[2..]);
        assert once[1..] == ReplaceCrLf(text[2..]);
      } else {
        NormalizedIsUnified(text[1..]);
        assert once[1..] == ReplaceCrLf(text[1..]);
      }
    }
  }

  // ---- Trimming

  function TrimStart(text: string): (r: string)
    ensures r == "" || !IsWhiteSpace(r[0])
  {
    if text != "" && IsWhiteSpace(text[0]) then TrimStart(text[1..]) else text
  }

  function TrimEnd(text: string): (r: string)
    ensures r == "" || !IsWhiteSpace(r[|r| - 1])
    ensures r <= text
  {
    if text != "" && IsWhiteSpace(text[|text| - 1]) then TrimEnd(text[..|text| - 1]) else text
  }

  /** `text.trim()` */
  function Trim(text: string): string {
    TrimEnd(TrimStart(text))
  }
}
