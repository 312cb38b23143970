/** `read_stream`, `utf8_tail_after` and the excerpt-shrinking loop of apps/desktop/src/host_shell_mcp.rs.

    Reads, log creation and log writes are foreign calls: their results are inputs of the model. */
module ShellStream {
  import opened Common
  import opened Base64

  const U64_MAX := 0xffff_ffff_ffff_ffff
  const MAX_LOG_BYTES := 67108864
  const MAX_REPLY_JSON_BYTES := 56000

  /** One result of `source.read`; an empty chunk is the end of the stream. */
  datatype Read = Chunk(bytes: Bytes) | Failed

  /** All bytes delivered before the stream ended or failed. */
  function Delivered(results: seq<Read>): Bytes {
    if results == [] || results[0].Failed? || results[0].bytes == [] then []
    else results[0].bytes + Delivered(results[1..])
  }

  function Last(bytes: Bytes, n: nat): Bytes {
    bytes[|bytes| - Min(n, |bytes|)..]
  }

  datatype Stream = Stream(tail: Bytes, seen: int, logged: int, log: Bytes, warning: bool)

  /** Keeps the tail, and logs through `writes[k]`, the success of the k-th log write. */
  method ReadStream(results: seq<Read>, created: bool, writes: seq<bool>, limit: nat) returns (r: Stream)
    ensures r.tail == Last(Delivered(results), limit)
    ensures r.seen == Min(|Delivered(results)|, U64_MAX)
    ensures r.logged == |r.log| <= MAX_LOG_BYTES && r.log <= Delivered(results)
    ensures created && (forall ok | ok in writes :: ok) && |writes| >= |results| ==>
      r.log == Delivered(results)[..Min(MAX_LOG_BYTES, |Delivered(results)|)]
    ensures !r.warning ==> r.log == Delivered(results)[..Min(MAX_LOG_BYTES, |Delivered(results)|)]
  {
    hide Last, Delivered;
    Beginning(results, limit);
    var open, warning := created, !created;
    var tail: Bytes := [];
    var seen, logged, log := 0, 0, [];
    var i, attempts := 0, 0;
    ghost var before: Bytes := [];
    while i < |results| && results[i].Chunk? && results[i].bytes != []
      invariant 0 <= i <= |results| && 0 <= attempts <= i
      invariant Delivered(results) == before + Delivered(results[i..])
      invariant tail == Last(before, limit) && seen == Min(|before|, U64_MAX)
      invariant logged == |log| <= MAX_LOG_BYTES && log <= before
      invariant open ==> log == before[..Min(MAX_LOG_BYTES, |before|)]
      invariant !open ==> warning
      invariant created && (forall ok | ok in writes :: ok) && |writes| >= |results| ==> open
    {
      var chunk := results[i].bytes;
      var amount := |chunk|;
      seen := Min(seen + amount, U64_MAX);
      var keep := Min(if logged < MAX_LOG_BYTES then MAX_LOG_BYTES - logged else 0, amount);
      if open && keep > 0 {
        assert attempts < |writes| ==> writes[attempts] in writes;
        if attempts < |writes| && writes[attempts] {
          LogGrows(before, chunk, log, keep);
          log, logged := log + chunk[..keep], logged + keep;
        } else {
          open, warning := false, true;
        }
        attempts := attempts + 1;
      }
      if amount >= limit {
        tail := chunk[amount - limit..];
      } else {
        var drop := if |tail| + amount > limit then |tail| + amount - limit else 0;
        tail := tail[drop..] + chunk;
      }
      TailMoves(before, chunk, limit);
      NextDelivered(results, i, before);
      before := before + chunk;
      i := i + 1;
    }
    Ended(results, i);
    assert before + [] == before;
    r := Stream(tail, seen, logged, log, warning || (i < |results| && results[i].Failed?));
  }

  lemma Beginning(results: seq<Read>, limit: nat)
    ensures Delivered(results) == [] + Delivered(results[0..]) && Last([], limit) == []
  {
    assert results[0..] == results;
  }

  lemma NextDelivered(results: seq<Read>, i: int, before: Bytes)
    requires 0 <= i < |results| && results[i].Chunk? && results[i].bytes != []
    ensures before + Delivered(results[i..]) == before + results[i].bytes + Delivered(results[i + 1..])
  {
    assert results[i..][1..] == results[i + 1..];
  }

  lemma Ended(results: seq<Read>, i: int)
    requires 0 <= i <= |results| && (i < |results| ==> results[i].Failed? || results[i].bytes == [])
    ensures Delivered(results[i..]) == []
  {
  }

  lemma LogGrows(before: Bytes, chunk: Bytes, log: Bytes, keep: nat)
    requires log == before[..Min(MAX_LOG_BYTES, |before|)] && keep == Min(MAX_LOG_BYTES - |log|, |chunk|) && keep > 0
    ensures log + chunk[..keep] == (before + chunk)[..Min(MAX_LOG_BYTES, |before + chunk|)]
  {
  }

  /** The tail of the extended stream, in the two ways the code computes it. */
  lemma TailMoves(before: Bytes, chunk: Bytes, limit: nat)
    ensures |chunk| >= limit ==> Last(before + chunk, limit) == chunk[|chunk| - limit..]
    ensures |chunk| < limit ==>
      var old_ := Last(before, limit);
      var drop := if |old_| + |chunk| > limit then |old_| + |chunk| - limit else 0;
      drop <= |old_| && Last(before + chunk, limit) == old_[drop..] + chunk
  {
    var whole := before + chunk;
    if |chunk| >= limit {
      assert Last(whole, limit) == whole[|before| + (|chunk| - limit)..] == chunk[|chunk| - limit..];
    } else {
      var n := Min(limit - |chunk|, |before|);
      assert whole[|before| - n..] == before[|before| - n..] + chunk;
      var old_ := Last(before, limit);
      var drop := if |old_| + |chunk| > limit then |old_| + |chunk| - limit else 0;
      assert old_[drop..] == before[|before| - n..];
    }
  }

  // ---- UTF-8 (section 3 of RFC 3629)

  function EncodeChar(c: char): (r: Bytes)
    ensures 1 <= |r| <= 4 && !(0x80 <= r[0] < 0xc0)
    ensures forall i | 1 <= i < |r| :: 0x80 <= r[i] < 0xc0
  {
    var n := c as int;
    if n < 0x80 then [n]
    else if n < 0x800 then [0xc0 + n / 64, 0x80 + n % 64]
    else if n < 0x10000 then [0xe0 + n / 4096, 0x80 + n / 64 % 64, 0x80 + n % 64]
    else [0xf0 + n / 262144, 0x80 + n / 4096 % 64, 0x80 + n / 64 % 64, 0x80 + n % 64]
  }

  function Utf8(text: string): Bytes {
    if text == "" then [] else EncodeChar(text[0]) + Utf8(text[1..])
  }

  /** `is_char_boundary` */
  predicate IsBoundary(bytes: Bytes, i: int)
    requires 0 <= i <= |bytes|
  {
    i == 0 || i == |bytes| || !(0x80 <= bytes[i] < 0xc0)
  }

  method Utf8TailAfter(bytes: Bytes, drop: nat) returns (tail: Bytes, ghost start: int)
    ensures Min(drop, |bytes|) <= start <= |bytes| && tail == bytes[start..] && IsBoundary(bytes, start)
    ensures forall i | Min(drop, |bytes|) <= i < start :: !IsBoundary(bytes, i)
  {
    var at := Min(drop, |bytes|);
    while at < |bytes| && !IsBoundary(bytes, at)
      invariant Min(drop, |bytes|) <= at <= |bytes|
      invariant forall i | Min(drop, |bytes|) <= i < at :: !IsBoundary(bytes, i)
    {
      at := at + 1;
    }
    start := at;
    tail := bytes[at..];
  }

  lemma {:induction false} Utf8Splits(text: string, k: int)
    requires 0 <= k <= |text|
    ensures Utf8(text) == Utf8(text[..k]) + Utf8(text[k..])
    decreases k
  {
    hide EncodeChar;
    if k == 0 {
      assert text[..0] == "" && text[0..] == text;
    } else {
      Utf8Splits(text[1..], k - 1);
      assert text[..k][1..] == text[1..][..k - 1] && text[1..][k - 1..] == text[k..];
    }
  }

  /** The byte boundaries of an encoded text are exactly the ends of its characters. */
  lemma {:induction false} BoundaryIsCharacterEnd(text: string, i: int)
    requires 0 <= i <= |Utf8(text)|
    ensures IsBoundary(Utf8(text), i) <==> exists k :: 0 <= k <= |text| && i == |Utf8(text[..k])|
    decreases |text|
  {
    hide EncodeChar;
    if text == "" {
      assert text[..0] == "";
    } else {
      var first, rest := EncodeChar(text[0]), text[1..];
      if i == 0 {
        assert text[..0] == "";
      } else if i < |first| {
        forall k | 0 <= k <= |text| ensures i != |Utf8(text[..k])| {
          if k > 0 { assert text[..k][0] == text[0]; }
        }
      } else {
        BoundaryIsCharacterEnd(rest, i - |first|);
        RestBoundary(text, i);
      }
    }
  }

  lemma PrefixLength(text: string, k: int)
    requires 1 <= k <= |text|
    ensures |Utf8(text[..k])| == |EncodeChar(text[0])| + |Utf8(text[1..][..k - 1])|
  {
    hide EncodeChar;
    assert text[..k][1..] == text[1..][..k - 1];
  }

  lemma {:induction false} RestBoundary(text: string, i: int)
    requires text != "" && |EncodeChar(text[0])| <= i <= |Utf8(text)|
    ensures IsBoundary(Utf8(text), i) <==> IsBoundary(Utf8(text[1..]), i - |EncodeChar(text[0])|)
    ensures (exists k :: 0 <= k <= |text| && i == |Utf8(text[..k])|)
            <==> exists k :: 0 <= k <= |text[1..]| && i - |EncodeChar(text[0])| == |Utf8(text[1..][..k])|
  {
    hide EncodeChar;
    var first, rest := EncodeChar(text[0]), text[1..];
    if i == |first| && rest != "" {
      assert Utf8(text)[i] == EncodeChar(rest[0])[0];
    }
    forall k | 1 <= k <= |text| ensures |Utf8(text[..k])| == |first| + |Utf8(rest[..k - 1])| {
      PrefixLength(text, k);
    }
    if k :| 0 <= k <= |text| && i == |Utf8(text[..k])| {
      assert k != 0 by { assert text[..0] == ""; }
      assert i - |first| == |Utf8(rest[..k - 1])|;
    }
    if m :| 0 <= m <= |rest| && i - |first| == |Utf8(rest[..m])| {
      assert i == |Utf8(text[..m + 1])|;
    }
  }

  /** Cutting an encoded text leaves the encoding of a suffix of its characters: the longest one that
      drops at least `drop` bytes. */
  lemma TailIsText(text: string, drop: nat, start: int)
    requires 0 <= Min(drop, |Utf8(text)|) <= start <= |Utf8(text)| && IsBoundary(Utf8(text), start)
    requires forall i | Min(drop, |Utf8(text)|) <= i < start :: !IsBoundary(Utf8(text), i)
    ensures exists k :: 0 <= k <= |text| && Utf8(text)[start..] == Utf8(text[k..]) && start == |Utf8(text[..k])|
              && forall m | 0 <= m <= |text| && |Utf8(text[..m])| < start :: |Utf8(text[..m])| < Min(drop, |Utf8(text)|)
  {
    hide EncodeChar;
    BoundaryIsCharacterEnd(text, start);
    var k :| 0 <= k <= |text| && start == |Utf8(text[..k])|;
    Utf8Splits(text, k);
    forall m | 0 <= m <= |text| && |Utf8(text[..m])| < start ensures |Utf8(text[..m])| < Min(drop, |Utf8(text)|) {
      Utf8Splits(text, m);
      BoundaryIsCharacterEnd(text, |Utf8(text[..m])|);
    }
  }

  // ---- The shrinking loop of `execute`

  /** A suffix of the original that starts at a character boundary of what it was cut from. */
  predicate SuffixOf(part: Bytes, whole: Bytes) {
    |part| <= |whole| && part == whole[|whole| - |part|..]
  }

  lemma WholeIsSuffix(whole: Bytes)
    ensures SuffixOf(whole, whole)
  {
  }

  lemma SuffixShrinks(part: Bytes, whole: Bytes, start: int)
    requires SuffixOf(part, whole) && 0 <= start <= |part|
    ensures SuffixOf(part[start..], whole)
  {
  }

  /** `size` is the length of the JSON reply with these excerpts. Ends with a reply within the bound or
      with both excerpts empty; a reply that fits is left alone. */
  method ShrinkExcerpts(stdout: Bytes, stderr: Bytes, size: (Bytes, Bytes) -> nat) returns (out: Bytes, err: Bytes)
    ensures size(out, err) <= MAX_REPLY_JSON_BYTES || (out == [] && err == [])
    ensures SuffixOf(out, stdout) && SuffixOf(err, stderr)
    ensures size(stdout, stderr) <= MAX_REPLY_JSON_BYTES ==> out == stdout && err == stderr
  {
    hide IsBoundary, SuffixOf;
    out, err := stdout, stderr;
    WholeIsSuffix(stdout);
    WholeIsSuffix(stderr);
    while size(out, err) > MAX_REPLY_JSON_BYTES
      invariant SuffixOf(out, stdout) && SuffixOf(err, stderr)
      invariant size(stdout, stderr) <= MAX_REPLY_JSON_BYTES ==> out == stdout && err == stderr
      decreases |out| + |err|
    {
      var shrinkOut := |out| >= |err|;
      var target := if shrinkOut then out else err;
      if target == [] {
        break;
      }
      var drop := if |target| / 4 > 1 then |target| / 4 else 1;
      ghost var start;
      target, start := Utf8TailAfter(target, drop);
      SuffixShrinks(if shrinkOut then out else err, if shrinkOut then stdout else stderr, start);
      if shrinkOut {
        out := target;
      } else {
        err := target;
      }
    }
  }
}
