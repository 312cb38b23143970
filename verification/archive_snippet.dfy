/** `local_snippet` of apps/desktop/src/local_archive_search.rs: an excerpt around a case-folded match.

    The text is a sequence of characters. `folds[i]` is what lowercasing the whole text makes of its
    i-th character, which may depend on the context (final sigma); `lower` is the context-free
    lowercasing of one character. Both are Unicode tables outside the model: a fold is never empty and
    its two forms have the same UTF-8 length. Positions in the folded text are UTF-8 byte offsets. */
module ArchiveSnippet {
  import opened Common
  import opened Text

  function Concat(folds: seq<string>): string {
    if folds == [] then "" else Concat(folds[..|folds| - 1]) + folds[|folds| - 1]
  }

  /** Folded bytes before the i-th character. */
  function Offset(folds: seq<string>, i: nat): nat
    requires i <= |folds|
  {
    ByteLength(Concat(folds[..i]))
  }

  /** The character index of the first occurrence. */
  function Find(text: string, query: string): (r: Option<nat>)
    ensures r.Some? ==> r.value + |query| <= |text| && text[r.value..r.value + |query|] == query
    ensures r.Some? ==> forall i | 0 <= i < r.value :: !(query <= text[i..])
    ensures r.None? ==> forall i | 0 <= i <= |text| :: !(query <= text[i..])
  {
    if query <= text then Some(0)
    else if text == "" then None
    else
      var later := Find(text[1..], query);
      assert forall i | 1 <= i <= |text| :: text[i..] == text[1..][i - 1..];
      match later
      case None => None
      case Some(k) => Some(k + 1)
  }

  predicate Folding(text: string, folds: seq<string>, lower: char -> string) {
    |folds| == |text|
    && forall i | 0 <= i < |text| :: lower(text[i]) != "" && ByteLength(lower(text[i])) == ByteLength(folds[i])
  }

  /** Folded bytes [from, to) lie inside the folds of characters [a, b), and neither end can move in. */
  predicate TightCover(folds: seq<string>, from: int, to: int, a: int, b: int) {
    && 0 <= a < b <= |folds|
    && Offset(folds, a) <= from < Offset(folds, a + 1)
    && Offset(folds, b - 1) < to <= Offset(folds, b)
  }

  lemma ByteLengthAppends(a: string, b: string)
    ensures ByteLength(a + b) == ByteLength(a) + ByteLength(b)
    decreases |b|
  {
    if b == "" {
      assert a + b == a;
    } else {
      ByteLengthAppends(a, b[..|b| - 1]);
      assert (a + b)[..|a + b| - 1] == a + b[..|b| - 1];
    }
  }

  lemma OffsetStep(folds: seq<string>, i: nat)
    requires i < |folds|
    ensures Offset(folds, i + 1) == Offset(folds, i) + ByteLength(folds[i])
  {
    assert folds[..i + 1][..i] == folds[..i];
    ByteLengthAppends(Concat(folds[..i]), folds[i]);
  }

  lemma {:induction false} OffsetsGrow(folds: seq<string>, i: nat, k: nat)
    requires i <= k <= |folds|
    ensures Offset(folds, i) <= Offset(folds, k)
    decreases k - i
  {
    if i < k {
      OffsetsGrow(folds, i, k - 1);
      OffsetStep(folds, k - 1);
    }
  }

  /** Any run of characters whose folds cover the match contains the tight cover. */
  lemma CoverIsTightest(folds: seq<string>, from: int, to: int, a: int, b: int, c: int, d: int)
    requires TightCover(folds, from, to, a, b)
    requires 0 <= c <= d <= |folds| && Offset(folds, c) <= from && to <= Offset(folds, d)
    ensures c <= a && b <= d
  {
    if a < c {
      OffsetsGrow(folds, a + 1, c);
    }
    if d < b {
      OffsetsGrow(folds, d, b - 1);
    }
  }

  /** `replace('\n', " ↵ ")` */
  function MarkNewlines(text: string): (r: string)
    ensures '\n' !in r && ('\r' !in text ==> '\r' !in r)
  {
    if text == "" then ""
    else
      assert text[0] in text && forall c | c in text[1..] :: c in text;
      (if text[0] == '\n' then " ↵ " else [text[0]]) + MarkNewlines(text[1..])
  }

  /** The excerpt around characters [a, b): at most 49 before and 96 after, on one line. */
  function Excerpt(text: string, a: int, b: int): (r: string)
    requires 0 <= a <= b <= |text|
    ensures '\n' !in r && '\r' !in r
  {
    var start, end := if a > 49 then a - 49 else 0, Min(b + 96, |text|);
    (if start > 0 then "…" else "") + MarkNewlines(Normalized(text[start..end])) + (if end < |text| then "…" else "")
  }

  function JoinedBy(lines: seq<string>, mark: string): string {
    if lines == [] then "" else if |lines| == 1 then lines[0] else lines[0] + mark + JoinedBy(lines[1..], mark)
  }

  /** Every line end is shown as an arrow between spaces, and nothing else changes. */
  lemma {:induction false} NewlinesAreMarked(text: string)
    ensures MarkNewlines(text) == JoinedBy(Split(text, '\n'), " ↵ ")
  {
    if text != "" {
      NewlinesAreMarked(text[1..]);
      var rest := Split(text[1..], '\n');
      if text[0] == '\n' {
        assert ([""] + rest)[1..] == rest;
      } else {
        var all := [[text[0]] + rest[0]] + rest[1..];
        assert all[1..] == rest[1..];
        if |rest| > 1 {
          assert [text[0]] + (rest[0] + " ↵ " + JoinedBy(rest[1..], " ↵ ")) == [text[0]] + rest[0] + " ↵ " + JoinedBy(rest[1..], " ↵ ");
        }
      }
    }
  }

  /** The excerpt shows the match between at most 49 characters before and at most 96 after it, all of them
      when there are no more, and an ellipsis on each side where something was left out. */
  lemma ExcerptLimits(text: string, a: int, b: int)
    requires 0 <= a <= b <= |text|
    ensures exists before, after, left, right ::
              && text == left + before + text[a..b] + after + right
              && |before| <= 49 && (left != "" ==> |before| == 49) && |after| <= 96 && (right != "" ==> |after| == 96)
              && |left| + |before| == a
              && Excerpt(text, a, b)
                 == (if left == "" then "" else "…")
                    + JoinedBy(Split(Normalized(before + text[a..b] + after), '\n'), " ↵ ")
                    + (if right == "" then "" else "…")
  {
    hide Normalized, MarkNewlines;
    var start, end := if a > 49 then a - 49 else 0, Min(b + 96, |text|);
    var before, after, left, right := text[start..a], text[b..end], text[..start], text[end..];
    assert text[start..end] == before + text[a..b] + after;
    assert text == left + before + text[a..b] + after + right;
    NewlinesAreMarked(Normalized(text[start..end]));
  }

  /** A match that an excerpt shows: the first one in the folded text, with its tight cover. */
  predicate Located(folds: seq<string>, query: string, a: int, b: int) {
    && Find(Concat(folds), query).Some?
    && var from := ByteLength(Concat(folds)[..Find(Concat(folds), query).value]);
       TightCover(folds, from, from + ByteLength(query), a, b)
  }

  method LocalSnippet(text: string, folds: seq<string>, lower: char -> string, query: string)
    returns (r: Option<string>, ghost a: int, ghost b: int)
    requires Folding(text, folds, lower)
    ensures r.Some? <==> query != "" && Find(Concat(folds), query).Some?
    ensures r.Some? ==> Located(folds, query, a, b) && r.value == Excerpt(text, a, b)
  {
    a, b := 0, 0;
    if query == "" {
      return None, a, b;
    }
    var folded := Concat(folds);
    var found := Find(folded, query);
    if found.None? {
      return None, a, b;
    }
    var matchStart := ByteLength(folded[..found.value]);
    var matchEnd := matchStart + ByteLength(query);
    MatchInside(folds, query, found.value);
    var start, end := Locate(text, folds, lower, matchStart, matchEnd);
    a, b := start, end;
    r := Some(Excerpt(text, start, end));
  }

  lemma BytesPositive(text: string)
    requires text != ""
    ensures ByteLength(text) > 0
  {
  }

  lemma MatchInside(folds: seq<string>, query: string, k: nat)
    requires query != "" && Find(Concat(folds), query) == Some(k)
    ensures
      var from := ByteLength(Concat(folds)[..k]);
      from < from + ByteLength(query) <= Offset(folds, |folds|)
  {
    hide Find, ByteLength, Concat;
    var folded := Concat(folds);
    BytesPositive(query);
    assert folds[..|folds|] == folds;
    assert folded == folded[..k] + query + folded[k + |query|..];
    ByteLengthAppends(folded[..k], query);
    ByteLengthAppends(folded[..k] + query, folded[k + |query|..]);
  }

  /** The two nested loops: characters, and the lowercase characters of each. */
  method Locate(text: string, folds: seq<string>, lower: char -> string, matchStart: nat, matchEnd: nat)
    returns (start: int, end: int)
    requires Folding(text, folds, lower) && matchStart < matchEnd <= Offset(folds, |folds|)
    ensures TightCover(folds, matchStart, matchEnd, start, end)
  {
    var offset := 0;
    var from, to: Option<int> := None, None;
    var i := 0;
    assert folds[..0] == [];
    while i < |text| && offset < matchEnd
      invariant 0 <= i <= |text| && offset == Offset(folds, i)
      invariant from.None? <==> offset <= matchStart
      invariant from.Some? ==> 0 <= from.value < i && Offset(folds, from.value) <= matchStart < Offset(folds, from.value + 1)
      invariant to.None? <==> i == 0
      invariant to.Some? ==> to.value == i && Offset(folds, i - 1) < matchEnd
    {
      ghost var before := offset;
      OffsetStep(folds, i);
      from, to, offset := Scan(lower(text[i]), offset, matchStart, matchEnd, i, from, to);
      i := i + 1;
    }
    assert folds[..|folds|] == folds;
    start, end := from.value, to.value;
  }

  /** One character: its lowercase form advances the folded offset. */
  method Scan(lowers: string, before: nat, matchStart: nat, matchEnd: nat, i: int, from: Option<int>, to: Option<int>)
    returns (from1: Option<int>, to1: Option<int>, offset: nat)
    requires lowers != "" && before < matchEnd
    ensures offset == before + ByteLength(lowers)
    ensures from1 == if from.Some? then from else if matchStart < offset then Some(i) else None
    ensures to1 == Some(i + 1)
  {
    from1, to1, offset := from, to, before;
    var k := 0;
    while k < |lowers|
      invariant 0 <= k <= |lowers| && offset == before + ByteLength(lowers[..k])
      invariant from1 == if from.Some? then from else if k > 0 && matchStart < offset then Some(i) else None
      invariant to1 == if k > 0 then Some(i + 1) else to
    {
      var end := offset + ByteLength([lowers[k]]);
      assert lowers[..k + 1] == lowers[..k] + [lowers[k]];
      ByteLengthAppends(lowers[..k], [lowers[k]]);
      BytesPositive([lowers[k]]);
      if from1.None? && matchStart < end {
        from1 := Some(i);
      }
      if offset < matchEnd {
        to1 := Some(i + 1);
      }
      offset := end;
      k := k + 1;
    }
    assert lowers[..k] == lowers;
  }
}
