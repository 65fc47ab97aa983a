/** The standard base64 alphabet with padding, section 4 of RFC 4648, as the Go library decodes it. */
module Base64 {
  import opened Streams

  type sextet = x: int | 0 <= x < 64

  function Letter(i: sextet): char {
    if i < 26 then (i + 65) as char
    else if i < 52 then (i + 71) as char
    else if i < 62 then (i - 4) as char
    else if i == 62 then '+'
    else '/'
  }

  function Index(c: char): Option<sextet> {
    if 'A' <= c <= 'Z' then Some(c as int - 65)
    else if 'a' <= c <= 'z' then Some(c as int - 71)
    else if '0' <= c <= '9' then Some(c as int + 4)
    else if c == '+' then Some(62)
    else if c == '/' then Some(63)
    else None
  }

  lemma LetterIndex(i: sextet)
    ensures Index(Letter(i)) == Some(i)
    ensures Letter(i) != '='
  {
  }

  function Encode(b: bytes): string {
    if b == [] then ""
    else if |b| == 1 then [Letter(b[0] / 4), Letter(b[0] % 4 * 16), '=', '=']
    else if |b| == 2 then [Letter(b[0] / 4), Letter(b[0] % 4 * 16 + b[1] / 16), Letter(b[1] % 16 * 4), '=']
    else
      [Letter(b[0] / 4), Letter(b[0] % 4 * 16 + b[1] / 16), Letter(b[1] % 16 * 4 + b[2] / 64), Letter(b[2] % 64)]
      + Encode(b[3..])
  }

  predicate LineBreak(c: char) {
    c == '\r' || c == '\n'
  }

  /** The decoder skips line breaks wherever they are. */
  function Strip(s: string): string {
    if s == "" then "" else Unbroken(s[0]) + Strip(s[1..])
  }

  function Unbroken(c: char): string {
    if LineBreak(c) then "" else [c]
  }

  function Decode(s: string): Option<bytes> {
    DecodeQuads(Strip(s))
  }

  /** Four letters make three bytes. */
  function DecodeFull(s: string): Option<bytes>
    requires |s| >= 4
  {
    var (i, j, k, l) := (Index(s[0]), Index(s[1]), Index(s[2]), Index(s[3]));
    if i.None? || j.None? || k.None? || l.None? then None
    else
      var a: int, b: int, c: int, d: int := i.value, j.value, k.value, l.value;
      Some([a * 4 + b / 16, b % 16 * 16 + c / 4, c % 4 * 64 + d])
  }

  /** The last four characters may end in one or two pads; bits beyond the last byte are ignored. */
  function DecodePadded(s: string): Option<bytes>
    requires |s| == 4
  {
    if Index(s[0]).None? || Index(s[1]).None? || s[3] != '=' then None
    else
      var a: int, b: int := Index(s[0]).value, Index(s[1]).value;
      if s[2] == '=' then Some([a * 4 + b / 16])
      else if Index(s[2]).None? then None
      else
        var c: int := Index(s[2]).value;
        Some([a * 4 + b / 16, b % 16 * 16 + c / 4])
  }

  function DecodeQuads(s: string): Option<bytes> {
    if s == "" then Some([])
    else if |s| < 4 then None
    else if DecodeFull(s).None? then (if |s| == 4 then DecodePadded(s) else None)
    else
      match DecodeQuads(s[4..])
      case None => None
      case Some(rest) => Some(DecodeFull(s).value + rest)
  }

  /** The four characters of three bytes. */
  function Quad(x: byte, y: byte, z: byte): string {
    [Letter(x / 4), Letter(x % 4 * 16 + y / 16), Letter(y % 16 * 4 + z / 64), Letter(z % 64)]
  }

  /** The bits of three bytes, regrouped into four sextets and back. */
  lemma Regroup(x: byte, y: byte, z: byte)
    ensures x / 4 * 4 + (x % 4 * 16 + y / 16) / 16 == x
    ensures (x % 4 * 16 + y / 16) % 16 * 16 + (y % 16 * 4 + z / 64) / 4 == y
    ensures (y % 16 * 4 + z / 64) % 4 * 64 + z % 64 == z
  {
  }

  lemma FullLetters(s: string, a: sextet, b: sextet, c: sextet, d: sextet)
    requires |s| >= 4 && s[..4] == [Letter(a), Letter(b), Letter(c), Letter(d)]
    ensures DecodeFull(s) == Some([a * 4 + b / 16, b % 16 * 16 + c / 4, c % 4 * 64 + d])
  {
    hide Letter, Index;
    assert s[0] == s[..4][0] && s[1] == s[..4][1] && s[2] == s[..4][2] && s[3] == s[..4][3];
    LetterIndex(a);
    LetterIndex(b);
    LetterIndex(c);
    LetterIndex(d);
  }

  lemma PaddedLetters(a: sextet, b: sextet, c: sextet)
    ensures DecodeQuads([Letter(a), Letter(b), '=', '=']) == Some([a * 4 + b / 16])
    ensures DecodeQuads([Letter(a), Letter(b), Letter(c), '=']) == Some([a * 4 + b / 16, b % 16 * 16 + c / 4])
  {
    hide Letter, Index;
    PadIsNoLetter();
    LetterIndex(a);
    LetterIndex(b);
    LetterIndex(c);
  }

  lemma PadIsNoLetter()
    ensures Index('=') == None
  {
  }

  lemma DecodeQuad(x: byte, y: byte, z: byte, rest: string)
    requires DecodeQuads(rest).Some?
    ensures DecodeQuads(Quad(x, y, z) + rest) == Some([x, y, z] + DecodeQuads(rest).value)
  {
    hide Letter, DecodeFull, DecodePadded;
    var s := Quad(x, y, z) + rest;
    assert s[..4] == Quad(x, y, z) && s[4..] == rest;
    Regroup(x, y, z);
    FullLetters(s, x / 4, x % 4 * 16 + y / 16, y % 16 * 4 + z / 64, z % 64);
  }

  lemma {:induction false} QuadsRoundTrip(b: bytes)
    ensures DecodeQuads(Encode(b)) == Some(b)
  {
    hide Letter, Index, DecodeQuads;
    if b == [] {
      assert DecodeQuads("") == Some([]) by { DecodeNothing(); }
    } else if |b| == 1 {
      Regroup(b[0], 0, 0);
      PaddedLetters(b[0] / 4, b[0] % 4 * 16, 0);
      assert b == [b[0]];
    } else if |b| == 2 {
      Regroup(b[0], b[1], 0);
      PaddedLetters(b[0] / 4, b[0] % 4 * 16 + b[1] / 16, b[1] % 16 * 4);
      assert b == [b[0], b[1]];
    } else {
      QuadsRoundTrip(b[3..]);
      DecodeQuad(b[0], b[1], b[2], Encode(b[3..]));
      assert b == [b[0], b[1], b[2]] + b[3..];
    }
  }

  lemma DecodeNothing()
    ensures DecodeQuads("") == Some([])
  {
  }

  /** Encoded text consists of letters, digits, `+`, `/` and `=` only. */
  predicate Plain(c: char) {
    Index(c).Some? || c == '='
  }

  lemma {:induction false} EncodePlain(b: bytes)
    ensures forall i :: 0 <= i < |Encode(b)| ==> Plain(Encode(b)[i])
    ensures Encode(b) == "" <==> b == []
  {
    hide Letter, Index;
    if |b| >= 3 {
      EncodePlain(b[3..]);
    }
    forall i: sextet ensures Plain(Letter(i)) {
      LetterIndex(i);
    }
  }

  lemma {:induction false} StripPlain(s: string)
    requires forall i :: 0 <= i < |s| ==> !LineBreak(s[i])
    ensures Strip(s) == s
  {
    if s != "" {
      StripPlain(s[1..]);
    }
  }

  /** Decoding inverts encoding. */
  lemma RoundTrip(b: bytes)
    ensures Decode(Encode(b)) == Some(b)
  {
    hide Strip, Encode, DecodeQuads, Plain, LineBreak;
    EncodePlain(b);
    forall i | 0 <= i < |Encode(b)| ensures !LineBreak(Encode(b)[i]) {
      PlainIsUnbroken(Encode(b)[i]);
    }
    StripPlain(Encode(b));
    QuadsRoundTrip(b);
  }

  lemma PlainIsUnbroken(c: char)
    requires Plain(c)
    ensures !LineBreak(c)
  {
  }

  /** Line breaks anywhere in the text make no difference. */
  lemma DecodeSkipsBreaks(a: string, b: string)
    ensures Decode(a + "\r" + b) == Decode(a + b) && Decode(a + "\n" + b) == Decode(a + b)
  {
    hide Strip;
    StripBreaks();
    StripConcat(a, b);
    StripConcat(a + "\r", b);
    StripConcat(a + "\n", b);
    StripConcat(a, "\r");
    StripConcat(a, "\n");
    assert Strip(a) + "" == Strip(a);
  }

  lemma StripBreaks()
    ensures Strip("\r") == Strip("\n") == ""
  {
    assert "\r"[1..] == "\n"[1..] == "";
  }

  lemma {:induction false} StripConcat(a: string, b: string)
    ensures Strip(a + b) == Strip(a) + Strip(b)
  {
    hide Strip, Unbroken;
    if a == "" {
      assert Strip("") == "" by { StripNothing(); }
      assert a + b == b;
    } else {
      StripConcat(a[1..], b);
      assert (a + b)[1..] == a[1..] + b;
      StripStep(a);
      StripStep(a + b);
      var c := Unbroken(a[0]);
      assert c + (Strip(a[1..]) + Strip(b)) == c + Strip(a[1..]) + Strip(b);
    }
  }

  lemma StripNothing()
    ensures Strip("") == ""
  {
  }

  lemma StripStep(s: string)
    requires s != ""
    ensures Strip(s) == Unbroken(s[0]) + Strip(s[1..])
  {
  }

  /** Text that is not just line breaks never decodes to nothing. */
  lemma DecodeNonEmpty(s: string)
    requires s != "" && !LineBreak(s[|s| - 1])
    ensures Decode(s) != Some([])
  {
    StripKeepsLast(s);
  }

  lemma {:induction false} StripKeepsLast(s: string)
    requires s != "" && !LineBreak(s[|s| - 1])
    ensures Strip(s) != ""
  {
    if |s| > 1 {
      StripKeepsLast(s[1..]);
    }
  }
}
