/** `encode_base64` of apps/desktop/src/attachment_intake.rs against a decoder for section 4 of RFC 4648.
    The shifts and masks on bytes are written as division and remainder by powers of two. */
module Base64 {
  import opened Common

  type Byte = x: int | 0 <= x < 256
  type Bytes = seq<Byte>

  const TABLE: string :=
    "ABCDEFGHIJKLM" + "NOPQRSTUVWXYZ" + "abcdefghijklm" + "nopqrstuvwxyz" + "0123456789+/"

  function Symbol(v: int): char
    requires 0 <= v < 64
  {
    TABLE[v]
  }

  function Range(first: char, n: nat): string
    requires first as int + n <= 128
  {
    seq(n, i requires 0 <= i < n => (first as int + i) as char)
  }

  /** The table is the alphabet of RFC 4648: A-Z, a-z, 0-9, plus and slash. */
  lemma TableIsAlphabet()
    ensures TABLE == Range('A', 26) + Range('a', 26) + Range('0', 10) + "+/"
  {
    assert "ABCDEFGHIJKLM" == Range('A', 13) && "NOPQRSTUVWXYZ" == Range('N', 13);
    assert "abcdefghijklm" == Range('a', 13) && "nopqrstuvwxyz" == Range('n', 13);
    assert "0123456789+/" == Range('0', 10) + "+/";
    assert Range('A', 26) == Range('A', 13) + Range('N', 13) && Range('a', 26) == Range('a', 13) + Range('n', 13);
  }

  /** The four characters for a chunk of one to three bytes. */
  function Quad(chunk: Bytes): (r: string)
    requires 1 <= |chunk| <= 3
    ensures |r| == 4
  {
    var a := chunk[0];
    var b := if |chunk| > 1 then chunk[1] else 0;
    var c := if |chunk| > 2 then chunk[2] else 0;
    [Symbol(a / 4),
     Symbol(a % 4 * 16 + b / 16),
     if |chunk| >= 2 then Symbol(b % 16 * 4 + c / 64) else '=',
     if |chunk| == 3 then Symbol(c % 64) else '=']
  }

  /** The encoding, three bytes at a time. */
  function Encoded(bytes: Bytes): string {
    if bytes == [] then ""
    else Quad(bytes[..Min(3, |bytes|)]) + Encoded(bytes[Min(3, |bytes|)..])
  }

  method EncodeBase64(bytes: Bytes) returns (encoded: string)
    ensures encoded == Encoded(bytes)
  {
    hide Quad, Encoded;
    encoded := "";
    var i := 0;
    while i < |bytes|
      invariant 0 <= i <= |bytes|
      invariant encoded + Encoded(bytes[i..]) == Encoded(bytes)
    {
      var end := Min(i + 3, |bytes|);
      ghost var before := encoded;
      ChunkEncoded(bytes, i, end);
      encoded := PushChunk(encoded, bytes[i..end]);
      assert encoded + Encoded(bytes[end..]) == before + (Quad(bytes[i..end]) + Encoded(bytes[end..]));
      i := end;
    }
    EncodedNothing();
    assert bytes[i..] == [] && encoded + "" == encoded;
  }

  lemma EncodedNothing()
    ensures Encoded([]) == ""
  {
  }

  lemma ChunkEncoded(bytes: Bytes, i: int, end: int)
    requires 0 <= i < |bytes| && end == Min(i + 3, |bytes|)
    ensures Encoded(bytes[i..]) == Quad(bytes[i..end]) + Encoded(bytes[end..])
  {
    var rest := bytes[i..];
    assert rest[..Min(3, |rest|)] == bytes[i..end] && rest[Min(3, |rest|)..] == bytes[end..];
  }

  /** The loop body: four pushes for one chunk. */
  method PushChunk(text: string, chunk: Bytes) returns (encoded: string)
    requires 1 <= |chunk| <= 3
    ensures encoded == text + Quad(chunk)
  {
    hide Symbol;
    var a := chunk[0];
    var b := if |chunk| > 1 then chunk[1] else 0;
    var c := if |chunk| > 2 then chunk[2] else 0;
    encoded := text + [Symbol(a / 4)];
    encoded := encoded + [Symbol(a % 4 * 16 + b / 16)];
    encoded := encoded + [if |chunk| >= 2 then Symbol(b % 16 * 4 + c / 64) else '='];
    encoded := encoded + [if |chunk| == 3 then Symbol(c % 64) else '='];
  }

  // ---- The decoder of section 4 of RFC 4648, canonical encodings only (section 3.5)

  /** The value of an alphabet character. */
  function ValueOf(c: char): Option<int> {
    if 'A' <= c <= 'Z' then Some(c as int - 'A' as int)
    else if 'a' <= c <= 'z' then Some(c as int - 'a' as int + 26)
    else if '0' <= c <= '9' then Some(c as int - '0' as int + 52)
    else if c == '+' then Some(62)
    else if c == '/' then Some(63)
    else None
  }

  /** One group: two, three or four values, with `=` padding and zero pad bits. */
  function DecodedQuad(q: string): Option<Bytes>
    requires |q| == 4
  {
    var v, w, x, y := ValueOf(q[0]), ValueOf(q[1]), ValueOf(q[2]), ValueOf(q[3]);
    if v.None? || w.None? then None
    else
      var a := v.value * 4 + w.value / 16;
      if q[2] == '=' && q[3] == '=' then if w.value % 16 == 0 then Some([a]) else None
      else if x.None? then None
      else
        var b := w.value % 16 * 16 + x.value / 4;
        if q[3] == '=' then if x.value % 4 == 0 then Some([a, b]) else None
        else if y.None? then None
        else Some([a, b, x.value % 4 * 64 + y.value])
  }

  /** Only the last group may be padded. */
  function Decoded(text: string): Option<Bytes> {
    if text == "" then Some([])
    else if |text| < 4 then None
    else
      var first, rest := DecodedQuad(text[..4]), Decoded(text[4..]);
      if first.None? || rest.None? || (|first.value| < 3 && |text| > 4) then None
      else Some(first.value + rest.value)
  }

  lemma SymbolIs(v: int)
    requires 0 <= v < 64
    ensures Symbol(v) == if v < 26 then ('A' as int + v) as char else if v < 52 then ('a' as int + v - 26) as char
                         else if v < 62 then ('0' as int + v - 52) as char else if v == 62 then '+' else '/'
  {
    TableIsAlphabet();
    var alphabet := Range('A', 26) + Range('a', 26) + Range('0', 10) + "+/";
    assert Symbol(v) == alphabet[v];
  }

  lemma SymbolInverts(v: int)
    requires 0 <= v < 64
    ensures ValueOf(Symbol(v)) == Some(v) && Symbol(v) != '='
  {
    hide Symbol;
    SymbolIs(v);
  }

  lemma ValueInverts(c: char)
    requires ValueOf(c).Some?
    ensures 0 <= ValueOf(c).value < 64 && Symbol(ValueOf(c).value) == c
  {
    hide Symbol;
    SymbolIs(ValueOf(c).value);
  }

  /** The sextets of three bytes recombine to them. */
  lemma Regroup(a: Byte, b: Byte, c: Byte)
    ensures a / 4 * 4 + (a % 4 * 16 + b / 16) / 16 == a && (a % 4 * 16 + b / 16) % 16 == b / 16
    ensures b / 16 * 16 + (b % 16 * 4 + c / 64) / 4 == b && (b % 16 * 4 + c / 64) % 4 == c / 64
    ensures c / 64 * 64 + c % 64 == c
  {
  }

  lemma QuadDecodes(chunk: Bytes)
    requires 1 <= |chunk| <= 3
    ensures DecodedQuad(Quad(chunk)) == Some(chunk)
  {
    hide ValueOf, Symbol;
    var a := chunk[0];
    var b := if |chunk| > 1 then chunk[1] else 0;
    var c := if |chunk| > 2 then chunk[2] else 0;
    SymbolInverts(a / 4);
    SymbolInverts(a % 4 * 16 + b / 16);
    SymbolInverts(b % 16 * 4 + c / 64);
    SymbolInverts(c % 64);
    Regroup(a, b, c);
    assert chunk == if |chunk| == 1 then [a] else if |chunk| == 2 then [a, b] else [a, b, c];
  }

  lemma DecodedQuadEncodes(q: string)
    requires |q| == 4 && DecodedQuad(q).Some?
    ensures 1 <= |DecodedQuad(q).value| <= 3 && Quad(DecodedQuad(q).value) == q
  {
    hide ValueOf, Symbol;
    if ValueOf(q[0]).Some? { ValueInverts(q[0]); }
    if ValueOf(q[1]).Some? { ValueInverts(q[1]); }
    if ValueOf(q[2]).Some? { ValueInverts(q[2]); }
    if ValueOf(q[3]).Some? { ValueInverts(q[3]); }
  }

  /** Four characters for every three bytes begun. */
  lemma {:induction false} EncodedLength(bytes: Bytes)
    ensures |Encoded(bytes)| == 4 * ((|bytes| + 2) / 3)
  {
    hide Quad;
    if bytes != [] {
      EncodedLength(bytes[Min(3, |bytes|)..]);
    }
  }

  /** The decoder recovers the exact bytes of every input. */
  lemma {:induction false} DecodeInverts(bytes: Bytes)
    ensures Decoded(Encoded(bytes)) == Some(bytes)
  {
    hide Quad, DecodedQuad;
    if bytes != [] {
      var n := Min(3, |bytes|);
      DecodeInverts(bytes[n..]);
      QuadDecodes(bytes[..n]);
      EncodedLength(bytes[n..]);
      assert Encoded(bytes)[..4] == Quad(bytes[..n]) && Encoded(bytes)[4..] == Encoded(bytes[n..]);
      assert bytes[..n] + bytes[n..] == bytes;
    }
  }

  /** Every canonical text is the encoding of what it decodes to: encoding is a bijection onto them. */
  lemma {:induction false} EncodeInverts(text: string)
    requires Decoded(text).Some?
    ensures Encoded(Decoded(text).value) == text
  {
    hide Quad, DecodedQuad;
    if text != "" {
      var first, rest := DecodedQuad(text[..4]).value, Decoded(text[4..]).value;
      EncodeInverts(text[4..]);
      DecodedQuadEncodes(text[..4]);
      if |first| == 3 {
        assert (first + rest)[..3] == first && (first + rest)[3..] == rest;
      } else {
        assert text[4..] == "";
        assert first + rest == first && first[|first|..] == [] && first[..|first|] == first;
      }
      assert text[..4] + text[4..] == text;
    }
  }

  /** Encoding distributes over concatenation at multiples of three. */
  lemma {:induction false} EncodeDistributes(a: Bytes, b: Bytes)
    requires |a| % 3 == 0
    ensures Encoded(a + b) == Encoded(a) + Encoded(b)
  {
    hide Quad;
    if a == [] {
      assert a + b == b;
    } else {
      EncodeDistributes(a[3..], b);
      assert (a + b)[..3] == a[..3] && (a + b)[3..] == a[3..] + b;
    }
  }
}
