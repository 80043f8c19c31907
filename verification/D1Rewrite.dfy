/** Replacing every unistr('...') call of a dump by a hexadecimal literal. */
module D1Rewrite {
  import opened Wrappers
  import opened D1Text
  import opened D1Utf8
  import opened D1Literals

  const CALL := "unistr('"

  /** How every call begins, whatever its argument is. */
  const NAME := "unistr("

  const CAST_OPEN := "CAST(X'"

  const CAST_CLOSE := "' AS TEXT)"

  function Cast(bytes: seq<Byte>): string { CAST_OPEN + Hex(bytes) + CAST_CLOSE }

  /** What a call with this text between its quotes becomes. */
  function Replacement(lax: string -> Option<int>, body: string, offset: nat): Result<string, Refusal> {
    match Unescape(lax, body, offset)
    case Refused(e) => Refused(e)
    case Ok(points) => if Scalars(points) then Ok(Cast(Encode(points))) else Refused(Surrogate(offset))
  }

  type Answer = Result<(string, nat), Refusal>

  /** Output already written, put before what the rest of the dump becomes. */
  function Onto(out: string, count: nat, rest: Answer): Answer {
    match rest
    case Ok((text, more)) => Ok((out + text, count + more))
    case Refused(e) => Refused(e)
  }

  /** The call that starts at the front of a text, then the rest of it. */
  function RewriteCall(lax: string -> Option<int>, s: string, at: nat): Answer
    requires At(s, CALL, 0)
    decreases |s|, 0
  {
    match Unquote(s[|CALL|..])
    case Open => Refused(Unterminated(at))
    case Closed(body, rest) =>
      if rest == "" || rest[0] != ')' then Refused(NotClosed(at))
      else
        match Replacement(lax, body, at)
        case Refused(e) => Refused(e)
        case Ok(text) => Onto(text, 1, Rewrite(lax, rest[1..], at + (|s| - |rest|) + 1))
  }

  /** The dump with its calls replaced and how many there were; `at` is where the text begins in the dump. */
  function Rewrite(lax: string -> Option<int>, s: string, at: nat): Answer
    decreases |s|, 1
  {
    match Find(s, CALL)
    case None => Ok((s, 0))
    case Some(k) =>
      AtFront(s, CALL, k);
      Onto(s[..k], 0, RewriteCall(lax, s[k..], at + k))
  }

  /** What the first call found makes of the dump. */
  lemma RewriteFound(lax: string -> Option<int>, s: string, at: nat, k: nat)
    requires Find(s, CALL) == Some(k)
    ensures At(s[k..], CALL, 0) && Rewrite(lax, s, at) == Onto(s[..k], 0, RewriteCall(lax, s[k..], at + k))
  {
    hide RewriteCall, Onto, Contains;
    AtFront(s, CALL, k);
    var call := RewriteCall(lax, s[k..], at + k);
    assert Rewrite(lax, s, at) == Onto(s[..k], 0, call);
  }

  // ---- the two cursor loops --------------------------------------------------------------

  function Longer(literal: string, rest: Literal): Literal {
    match rest
    case Open => Open
    case Closed(text, tail) => Closed(literal + text, tail)
  }

  lemma LongerUnder(literal: string, c: char, inner: Literal)
    ensures Longer(literal, Under(c, inner)) == Longer(literal + [c], inner)
  {
    if inner.Closed? {
      assert literal + ([c] + inner.text) == literal + [c] + inner.text;
    }
  }

  lemma LongerNothing(inner: Literal)
    ensures Longer("", inner) == inner
  {
    if inner.Closed? {
      assert "" + inner.text == inner.text;
    }
  }

  /** From behind the opening quote to behind the closing one. */
  method ReadLiteral(source: string, from: nat) returns (r: Option<(string, nat)>)
    requires from <= |source|
    ensures r.None? ==> Unquote(source[from..]) == Open
    ensures r.Some? ==>
      from < r.value.1 <= |source| && Unquote(source[from..]) == Closed(r.value.0, source[r.value.1..])
  {
    var cursor, literal := from, "";
    LongerNothing(Unquote(source[from..]));
    while cursor < |source|
      invariant from <= cursor <= |source|
      invariant Unquote(source[from..]) == Longer(literal, Unquote(source[cursor..]))
    {
      var c := source[cursor];
      ghost var rest := source[cursor..];
      if c == '\'' {
        if cursor + 1 < |source| && source[cursor + 1] == '\'' {
          assert rest[2..] == source[cursor + 2..];
          LongerUnder(literal, '\'', Unquote(source[cursor + 2..]));
          literal := literal + ['\''];
          cursor := cursor + 2;
          continue;
        }
        assert rest[1..] == source[cursor + 1..];
        assert literal + "" == literal;
        return Some((literal, cursor + 1));
      }
      assert rest[1..] == source[cursor + 1..];
      LongerUnder(literal, c, Unquote(source[cursor + 1..]));
      literal := literal + [c];
      cursor := cursor + 1;
    }
    assert source[|source|..] == "";
    return None;
  }

  lemma OntoOnto(out: string, count: nat, text: string, more: nat, rest: Answer)
    ensures Onto(out, count, Onto(text, more, rest)) == Onto(out + text, count + more, rest)
  {
    if rest.Ok? {
      assert out + (text + rest.value.0) == out + text + rest.value.0;
    }
  }

  lemma OntoNothing(rest: Answer)
    ensures Onto("", 0, rest) == rest
  {
    if rest.Ok? {
      assert "" + rest.value.0 == rest.value.0;
    }
  }

  /** One call, from its first letter to behind its closing parenthesis. */
  method RewriteOne(lax: string -> Option<int>, source: string, start: nat)
    returns (r: Result<(string, nat), Refusal>)
    requires start <= |source| && At(source[start..], CALL, 0)
    ensures r.Refused? ==> RewriteCall(lax, source[start..], start) == Refused(r.error)
    ensures r.Ok? ==> start < r.value.1 <= |source|
    ensures r.Ok? ==>
      RewriteCall(lax, source[start..], start) == Onto(r.value.0, 1, Rewrite(lax, source[r.value.1..], r.value.1))
  {
    hide Replacement, Unquote, Rewrite;
    ghost var here := source[start..];
    assert here[|CALL|..] == source[start + 8..];
    var literal := ReadLiteral(source, start + 8);
    if literal.None? {
      return Refused(Unterminated(start));
    }
    var (body, cursor) := literal.value;
    if cursor >= |source| || source[cursor] != ')' {
      return Refused(NotClosed(start));
    }
    cursor := cursor + 1;
    var text := Replacement(lax, body, start);
    if text.Refused? {
      return Refused(text.error);
    }
    assert source[cursor - 1..][1..] == source[cursor..];
    return Ok((text.value, cursor));
  }

  method RewriteUnistr(lax: string -> Option<int>, source: string) returns (r: Answer)
    ensures r == Rewrite(lax, source, 0)
  {
    hide RewriteCall, Rewrite, Onto, Contains;
    var out, index, count := "", 0, 0;
    assert source[0..] == source;
    OntoNothing(Rewrite(lax, source, 0));
    while true
      invariant 0 <= index <= |source|
      invariant Rewrite(lax, source, 0) == Onto(out, count, Rewrite(lax, source[index..], index))
      decreases |source| - index
    {
      ghost var tail := source[index..];
      var found := Find(source[index..], CALL);
      if found.None? {
        NothingToRewrite(lax, source[index..], index);
        OntoText(out, count, source[index..]);
        return Ok((out + source[index..], count));
      }
      var start := index + found.value;
      assert tail[..found.value] == source[index..start] && tail[found.value..] == source[start..];
      RewriteFound(lax, tail, index, found.value);
      OntoOnto(out, count, source[index..start], 0, RewriteCall(lax, source[start..], start));
      out := out + source[index..start];
      var one := RewriteOne(lax, source, start);
      if one.Refused? {
        OntoRefused(out, count, one.error);
        return Refused(one.error);
      }
      var (text, cursor) := one.value;
      OntoOnto(out, count, text, 1, Rewrite(lax, source[cursor..], cursor));
      out := out + text;
      count := count + 1;
      index := cursor;
    }
  }

  lemma NothingToRewrite(lax: string -> Option<int>, s: string, at: nat)
    requires !Contains(s, CALL)
    ensures Rewrite(lax, s, at) == Ok((s, 0))
  {
  }

  lemma OntoText(out: string, count: nat, text: string)
    ensures Onto(out, count, Ok((text, 0))) == Ok((out + text, count))
  {
  }

  lemma OntoRefused(out: string, count: nat, e: Refusal)
    ensures Onto(out, count, Refused(e)) == Refused(e)
  {
  }

  lemma AtFront(s: string, p: string, k: nat)
    requires At(s, p, k)
    ensures At(s[k..], p, 0)
  {
    assert s[k..][0..0 + |p|] == s[k..k + |p|];
  }
}
