/** SQL string literals and the escapes inside a unistr() call. */
module D1Literals {
  import opened Wrappers
  import opened D1Utf8

  /** How the rewriter stops instead of answering; the number is an offset into the dump. */
  datatype Refusal =
    | Unterminated(offset: nat)
    | NotClosed(offset: nat)
    | TruncatedEscape(offset: nat)
    | InvalidEscape(offset: nat)
    | Surrogate(offset: nat)

  // ---- quoting ---------------------------------------------------------------------------

  /** A quote inside a literal is written twice. */
  function Doubled(text: string): string {
    if text == "" then ""
    else (if text[0] == '\'' then "''" else [text[0]]) + Doubled(text[1..])
  }

  /** What follows an opening quote: the text up to the closing quote, and the rest. */
  datatype Literal = Open | Closed(text: string, rest: string)

  function Unquote(s: string): (r: Literal)
    ensures r.Closed? ==> |r.rest| < |s|
  {
    if s == "" then Open
    else if s[0] != '\'' then Under(s[0], Unquote(s[1..]))
    else if |s| > 1 && s[1] == '\'' then Under('\'', Unquote(s[2..]))
    else Closed("", s[1..])
  }

  function Under(c: char, inner: Literal): Literal {
    match inner
    case Open => Open
    case Closed(text, rest) => Closed([c] + text, rest)
  }

  /** Reading a literal is the inverse of writing it, and there is no other reading. */
  lemma {:induction false} QuoteRoundTrip(s: string, text: string, rest: string)
    ensures Unquote(s) == Closed(text, rest) <==>
      s == Doubled(text) + "'" + rest && (rest == "" || rest[0] != '\'')
    decreases |s| + |text|
  {
    if Unquote(s) == Closed(text, rest) {
      ClosedIsDoubled(s, text, rest);
    }
    if s == Doubled(text) + "'" + rest && (rest == "" || rest[0] != '\'') {
      DoubledIsClosed(text, rest);
    }
  }

  lemma {:induction false} ClosedIsDoubled(s: string, text: string, rest: string)
    requires Unquote(s) == Closed(text, rest)
    ensures s == Doubled(text) + "'" + rest && (rest == "" || rest[0] != '\'')
  {
    if s[0] != '\'' {
      ClosedIsDoubled(s[1..], text[1..], rest);
      assert s == [s[0]] + s[1..];
    } else if |s| > 1 && s[1] == '\'' {
      ClosedIsDoubled(s[2..], text[1..], rest);
      assert s == "''" + s[2..];
    } else {
      assert s == "'" + s[1..];
    }
  }

  lemma {:induction false} DoubledIsClosed(text: string, rest: string)
    requires rest == "" || rest[0] != '\''
    ensures Unquote(Doubled(text) + "'" + rest) == Closed(text, rest)
  {
    if text == "" {
      QuoteCloses(rest);
    } else {
      DoubledIsClosed(text[1..], rest);
      DoubledPrepends(text[0], text[1..], Doubled(text[1..]) + "'" + rest, rest);
      assert text == [text[0]] + text[1..];
      assert Doubled(text) + "'" + rest ==
        (if text[0] == '\'' then "''" else [text[0]]) + (Doubled(text[1..]) + "'" + rest);
    }
  }

  lemma QuoteCloses(rest: string)
    requires rest == "" || rest[0] != '\''
    ensures Unquote("" + "'" + rest) == Closed("", rest)
  {
    var s := "" + "'" + rest;
    assert s[1..] == rest;
  }

  lemma DoubledPrepends(c: char, text: string, s: string, rest: string)
    requires Unquote(s) == Closed(text, rest)
    ensures Unquote((if c == '\'' then "''" else [c]) + s) == Closed([c] + text, rest)
  {
    var t := (if c == '\'' then "''" else [c]) + s;
    if c == '\'' {
      assert t[2..] == s;
    } else {
      assert t[1..] == s;
    }
  }

  // ---- escapes ---------------------------------------------------------------------------

  const LAST_POINT := 0x10FFFF

  /**
   * The code point some digits name. Real hexadecimal digits have one reading;
   * what else the script's number parser takes (signs, blanks, underscores, a
   * prefix, other scripts' digits) is the parameter.
   */
  function CodePoint(lax: string -> Option<int>, digits: string): (n: Option<int>)
    ensures n.Some? ==> 0 <= n.value <= LAST_POINT
  {
    var read := if AllHex(digits) then Some(Number(digits)) else lax(digits);
    if read.Some? && 0 <= read.value <= LAST_POINT then read else None
  }

  function Width(letter: char): nat { if letter == 'u' then 4 else 8 }

  predicate EscapedSlash(body: string) { |body| > 1 && body[0] == '\\' && body[1] == '\\' }

  predicate EscapedPoint(body: string) { |body| > 1 && body[0] == '\\' && (body[1] == 'u' || body[1] == 'U') }

  function Before(n: int, rest: Result<seq<int>, Refusal>): Result<seq<int>, Refusal> {
    match rest
    case Ok(points) => Ok([n] + points)
    case Refused(e) => Refused(e)
  }

  /** The code points an escaped text stands for. */
  function Unescape(lax: string -> Option<int>, body: string, offset: nat): Result<seq<int>, Refusal> {
    if body == "" then Ok([])
    else if EscapedSlash(body) then Before('\\' as int, Unescape(lax, body[2..], offset))
    else if EscapedPoint(body) then
      var width := Width(body[1]);
      if |body| < 2 + width then Refused(TruncatedEscape(offset))
      else
        match CodePoint(lax, body[2..2 + width])
        case None => Refused(InvalidEscape(offset))
        case Some(n) => Before(n, Unescape(lax, body[2 + width..], offset))
    else Before(body[0] as int, Unescape(lax, body[1..], offset))
  }

  function After(out: seq<int>, rest: Result<seq<int>, Refusal>): Result<seq<int>, Refusal> {
    match rest
    case Ok(points) => Ok(out + points)
    case Refused(e) => Refused(e)
  }

  lemma AfterBefore(out: seq<int>, n: int, rest: Result<seq<int>, Refusal>)
    ensures After(out, Before(n, rest)) == After(out + [n], rest)
  {
    if rest.Ok? {
      assert out + ([n] + rest.value) == out + [n] + rest.value;
    }
  }

  lemma AfterNothing(rest: Result<seq<int>, Refusal>)
    ensures After([], rest) == rest
  {
    if rest.Ok? {
      assert [] + rest.value == rest.value;
    }
  }

  /** The cursor loop over one literal's escapes. */
  method DecodeUnistr(lax: string -> Option<int>, body: string, offset: nat) returns (r: Result<seq<int>, Refusal>)
    ensures r == Unescape(lax, body, offset)
  {
    var out: seq<int> := [];
    var index := 0;
    assert body[0..] == body;
    AfterNothing(Unescape(lax, body, offset));
    while index < |body|
      invariant 0 <= index <= |body|
      invariant Unescape(lax, body, offset) == After(out, Unescape(lax, body[index..], offset))
    {
      ghost var rest := body[index..];
      if body[index] == '\\' && index + 1 < |body| {
        var escape := body[index + 1];
        if escape == '\\' {
          assert rest[2..] == body[index + 2..];
          AfterBefore(out, '\\' as int, Unescape(lax, body[index + 2..], offset));
          out := out + ['\\' as int];
          index := index + 2;
          continue;
        }
        if escape == 'u' || escape == 'U' {
          var width := Width(escape);
          if |body| < index + 2 + width {
            return Refused(TruncatedEscape(offset));
          }
          var digits := body[index + 2..index + 2 + width];
          assert rest[2..2 + width] == digits;
          var n := CodePoint(lax, digits);
          if n.None? {
            return Refused(InvalidEscape(offset));
          }
          assert rest[2 + width..] == body[index + 2 + width..];
          AfterBefore(out, n.value, Unescape(lax, body[index + 2 + width..], offset));
          out := out + [n.value];
          index := index + 2 + width;
          continue;
        }
      }
      assert rest[1..] == body[index + 1..];
      AfterBefore(out, body[index] as int, Unescape(lax, body[index + 1..], offset));
      out := out + [body[index] as int];
      index := index + 1;
    }
    assert body[|body|..] == "" && out + [] == out;
    return Ok(out);
  }

  // ---- what the escapes are the inverse of -----------------------------------------------

  /** One unit of an escaped text. */
  datatype Piece = Raw(c: char) | Slash | Short(digits: string) | Long(digits: string)

  predicate Proper(p: Piece) {
    match p
    case Raw(c) => c != '\\'
    case Slash => true
    case Short(d) => |d| == 4 && AllHex(d) && Number(d) <= LAST_POINT
    case Long(d) => |d| == 8 && AllHex(d) && Number(d) <= LAST_POINT
  }

  function Spell(p: Piece): string {
    match p
    case Raw(c) => [c]
    case Slash => "\\\\"
    case Short(d) => "\\u" + d
    case Long(d) => "\\U" + d
  }

  function Point(p: Piece): int
    requires Proper(p)
  {
    match p
    case Raw(c) => c as int
    case Slash => '\\' as int
    case Short(d) => Number(d)
    case Long(d) => Number(d)
  }

  predicate AllProper(ps: seq<Piece>) { forall i :: 0 <= i < |ps| ==> Proper(ps[i]) }

  function SpellAll(ps: seq<Piece>): string {
    if ps == [] then "" else Spell(ps[0]) + SpellAll(ps[1..])
  }

  function Points(ps: seq<Piece>): seq<int>
    requires AllProper(ps)
  {
    if ps == [] then [] else [Point(ps[0])] + Points(ps[1..])
  }

  lemma UnescapePiece(lax: string -> Option<int>, p: Piece, rest: string, offset: nat)
    requires Proper(p)
    ensures Unescape(lax, Spell(p) + rest, offset) == Before(Point(p), Unescape(lax, rest, offset))
  {
    var body := Spell(p) + rest;
    assert body[|Spell(p)|..] == rest;
    if p.Short? || p.Long? {
      assert body[2..2 + |p.digits|] == p.digits;
    }
  }

  /** Every properly escaped text is read back, whatever else the number parser accepts. */
  lemma {:induction false} UnescapeSpelled(lax: string -> Option<int>, ps: seq<Piece>, offset: nat)
    requires AllProper(ps)
    ensures Unescape(lax, SpellAll(ps), offset) == Ok(Points(ps))
  {
    if ps != [] {
      UnescapePiece(lax, ps[0], SpellAll(ps[1..]), offset);
      UnescapeSpelled(lax, ps[1..], offset);
    }
  }

  /** How the dump writes one character of a value that holds control characters. */
  function Escaped(c: char): Piece {
    if c == '\\' then Slash
    else if c < ' ' || c == 127 as char then Short(Fixed(c as int, 4))
    else Raw(c)
  }

  function EscapedText(value: string): seq<Piece> {
    if value == "" then [] else [Escaped(value[0])] + EscapedText(value[1..])
  }

  function PointsOf(value: string): (points: seq<int>)
    ensures |points| == |value| && forall i :: 0 <= i < |value| ==> points[i] == value[i] as int
    ensures Scalars(points)
  {
    seq(|value|, i requires 0 <= i < |value| => value[i] as int)
  }

  lemma EscapedIsProper(c: char)
    ensures Proper(Escaped(c)) && Point(Escaped(c)) == c as int
  {
    if Escaped(c).Short? {
      assert Power16(4) == 65536;
      FixedRoundTrip(c as int, 4);
    }
  }

  lemma {:induction false} EscapedTextIsProper(value: string)
    ensures AllProper(EscapedText(value)) && Points(EscapedText(value)) == PointsOf(value)
  {
    if value != "" {
      EscapedIsProper(value[0]);
      EscapedTextIsProper(value[1..]);
      assert EscapedText(value)[1..] == EscapedText(value[1..]);
      assert PointsOf(value) == [value[0] as int] + PointsOf(value[1..]);
    }
  }

  /** Escaping any text and unescaping it gives the text back. */
  lemma EscapeRoundTrip(lax: string -> Option<int>, value: string, offset: nat)
    ensures Unescape(lax, SpellAll(EscapedText(value)), offset) == Ok(PointsOf(value))
  {
    EscapedTextIsProper(value);
    UnescapeSpelled(lax, EscapedText(value), offset);
  }
}
