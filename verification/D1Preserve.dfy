/** What the rewriter does to a dump written as a list of tokens. */
module D1Preserve {
  import opened Wrappers
  import opened D1Text
  import opened D1Utf8
  import opened D1Literals
  import opened D1Rewrite

  /** SQL text between literals, an ordinary text literal, and a unistr call over an escaped text. */
  datatype Token = Plain(text: string) | Quoted(value: string) | Call(body: string)

  function PrintOne(t: Token): string {
    match t
    case Plain(text) => text
    case Quoted(value) => "'" + Doubled(value) + "'"
    case Call(body) => CALL + Doubled(body) + "')"
  }

  function Print(ts: seq<Token>): string {
    if ts == [] then "" else PrintOne(ts[0]) + Print(ts[1..])
  }

  /** A call the database can evaluate to text. */
  predicate Evaluates(lax: string -> Option<int>, body: string) {
    var points := Unescape(lax, body, 0);
    points.Ok? && Scalars(points.value)
  }

  predicate AllEvaluate(lax: string -> Option<int>, ts: seq<Token>) {
    forall i :: 0 <= i < |ts| && ts[i].Call? ==> Evaluates(lax, ts[i].body)
  }

  /** The rewritten dump: a token kept as it is, or a hexadecimal cast. */
  datatype Out = Same(token: Token) | Blob(hex: string)

  function TranslateOne(lax: string -> Option<int>, t: Token): Out
    requires t.Call? ==> Evaluates(lax, t.body)
  {
    if t.Call? then Blob(Hex(Encode(Unescape(lax, t.body, 0).value))) else Same(t)
  }

  function Translate(lax: string -> Option<int>, ts: seq<Token>): (outs: seq<Out>)
    requires AllEvaluate(lax, ts)
    ensures |outs| == |ts|
  {
    if ts == [] then [] else [TranslateOne(lax, ts[0])] + Translate(lax, ts[1..])
  }

  function PrintOutOne(o: Out): string {
    match o
    case Same(t) => PrintOne(t)
    case Blob(hex) => CAST_OPEN + hex + CAST_CLOSE
  }

  function PrintOut(outs: seq<Out>): string {
    if outs == [] then "" else PrintOutOne(outs[0]) + PrintOut(outs[1..])
  }

  function Calls(ts: seq<Token>): nat {
    if ts == [] then 0 else (if ts[0].Call? then 1 else 0) + Calls(ts[1..])
  }

  /** The SQL value of a token, as code points; plain SQL has none. */
  function Value(lax: string -> Option<int>, t: Token): Option<seq<int>> {
    match t
    case Plain(_) => None
    case Quoted(value) => Some(PointsOf(value))
    case Call(body) => if Evaluates(lax, body) then Some(Unescape(lax, body, 0).value) else None
  }

  /** The SQL value of an output token: a cast blob is read back as UTF-8. */
  function ValueOut(lax: string -> Option<int>, o: Out): Option<seq<int>> {
    match o
    case Same(t) => Value(lax, t)
    case Blob(hex) => match Unhex(hex) case None => None case Some(bytes) => Decode(bytes)
  }

  /**
   * No run of tokens between calls prints the opening of a call. `run` is what
   * the tokens since the last call have printed so far.
   */
  predicate CleanAfter(run: string, ts: seq<Token>)
    decreases |ts|
  {
    if ts == [] then !Contains(run, CALL)
    else if ts[0].Call? then !Contains(run, CALL) && CleanAfter("", ts[1..])
    else CleanAfter(run + PrintOne(ts[0]), ts[1..])
  }

  predicate Clean(ts: seq<Token>) { CleanAfter("", ts) }

  // ---- one call ----------------------------------------------------------------------------

  /** Only the first letter of the pattern is a `u`, so no occurrence reaches into the next one. */
  lemma NoOverlap(run: string, rest: string, i: nat)
    requires i < |run|
    ensures At(run + CALL + rest, CALL, i) ==> i + |CALL| <= |run|
  {
    var s := run + CALL + rest;
    var j := if i + |CALL| > |run| then |run| - i else 1;
    assert s[|run|] == 'u' && CALL[j] != 'u';
    if At(s, CALL, i) {
      assert s[i..i + |CALL|][j] == s[i + j];
    }
  }

  lemma FindAfterRun(run: string, rest: string)
    requires !Contains(run, CALL)
    ensures Find(run + CALL + rest, CALL) == Some(|run|)
  {
    var s := run + CALL + rest;
    assert s[|run|..|run| + |CALL|] == CALL;
    assert run + (CALL + rest) == s;
    forall i | 0 <= i < |run| ensures !At(s, CALL, i) {
      NoOverlap(run, rest, i);
      AtAppended(run, CALL + rest, CALL, i);
    }
    FoundAt(s, CALL, |run|);
  }

  lemma ErrorIgnoresOffset(lax: string -> Option<int>, body: string, a: nat, b: nat)
    ensures Unescape(lax, body, a).Ok? <==> Unescape(lax, body, b).Ok?
    ensures Unescape(lax, body, a).Ok? ==> Unescape(lax, body, a) == Unescape(lax, body, b)
  {
  }

  /** What a call becomes in front of the rest of the dump. */
  function Replaced(lax: string -> Option<int>, body: string, at: nat, rest: Answer): Answer {
    match Replacement(lax, body, at)
    case Refused(e) => Refused(e)
    case Ok(text) => Onto(text, 1, rest)
  }

  lemma CallReplaced(lax: string -> Option<int>, s: string, body: string, behind: string, at: nat)
    requires At(s, CALL, 0) && Unquote(s[|CALL|..]) == Closed(body, behind)
    requires behind != "" && behind[0] == ')'
    ensures RewriteCall(lax, s, at) ==
      Replaced(lax, body, at, Rewrite(lax, behind[1..], at + (|s| - |behind|) + 1))
  {
    hide Replacement, Unquote, Onto, Unescape, Find, Contains;
    var call, replaced := RewriteCall(lax, s, at),
      Replaced(lax, body, at, Rewrite(lax, behind[1..], at + (|s| - |behind|) + 1));
    if Replacement(lax, body, at).Ok? {
      assert call == replaced;
    } else {
      assert call == replaced;
    }
  }

  /** A printed call, read whole and replaced. */
  lemma RewritePrintedCall(lax: string -> Option<int>, body: string, rest: string, at: nat)
    ensures var call := PrintOne(Call(body));
      && At(call + rest, CALL, 0)
      && RewriteCall(lax, call + rest, at) == Replaced(lax, body, at, Rewrite(lax, rest, at + |call|))
  {
    hide Replaced, Doubled, Unquote, Rewrite, RewriteCall;
    var here, behind := PrintOne(Call(body)) + rest, ")" + rest;
    var inner := Doubled(body) + "'" + behind;
    assert here == CALL + inner;
    DoubledIsClosed(body, behind);
    assert here[|CALL|..] == inner && here[0..0 + |CALL|] == CALL && behind[1..] == rest;
    CallReplaced(lax, here, body, behind, at);
  }

  /** Behind a clean run the next call is the first one found. */
  lemma RewriteAfterRun(lax: string -> Option<int>, run: string, body: string, rest: string, at: nat)
    requires !Contains(run, CALL)
    ensures var call := PrintOne(Call(body));
      Rewrite(lax, run + (call + rest), at) ==
        Onto(run, 0, Replaced(lax, body, at + |run|, Rewrite(lax, rest, at + |run| + |call|)))
  {
    hide Replaced, Doubled, RewriteCall, Rewrite, Onto, Contains;
    var here := PrintOne(Call(body)) + rest;
    var s, inner := run + here, Doubled(body) + "')" + rest;
    assert s == run + CALL + inner;
    FindAfterRun(run, inner);
    assert s[..|run|] == run && s[|run|..] == here;
    RewriteFound(lax, s, at, |run|);
    RewritePrintedCall(lax, body, rest, at + |run|);
  }

  // ---- the main theorem ------------------------------------------------------------------

  /** The whole answer expected of a dump of tokens behind a run. */
  function Expected(lax: string -> Option<int>, run: string, ts: seq<Token>): Answer
    requires AllEvaluate(lax, ts)
  {
    Ok((run + PrintOut(Translate(lax, ts)), Calls(ts)))
  }

  lemma ReplacementOf(lax: string -> Option<int>, body: string, offset: nat)
    requires Evaluates(lax, body)
    ensures Replacement(lax, body, offset) == Ok(PrintOutOne(TranslateOne(lax, Call(body))))
  {
    ErrorIgnoresOffset(lax, body, 0, offset);
  }

  /** What the rewriter answers when the run itself holds an opening: a cast where the run has a `u`. */
  lemma DirtyRunIsChanged(lax: string -> Option<int>, run: string, rest: string, at: nat) returns (k: nat)
    requires Contains(run, CALL)
    ensures k < |run| && run[k] == 'u'
    ensures Rewrite(lax, run + rest, at).Ok? ==>
      k < |Rewrite(lax, run + rest, at).value.0| && Rewrite(lax, run + rest, at).value.0[k] == 'C'
  {
    hide RewriteCall, Rewrite, At, Contains;
    var s := run + rest;
    k := Find(run, CALL).value;
    FirstInRun(run, rest, k);
    RewriteFound(lax, s, at, k);
    CallBecomesCast(lax, s[k..], at + k);
  }

  lemma FirstInRun(run: string, rest: string, k: nat)
    requires Find(run, CALL) == Some(k)
    ensures Find(run + rest, CALL) == Some(k) && k < |run| && run[k] == 'u'
  {
    AtAppended(run, rest, CALL, k);
    forall i | 0 <= i < k ensures !At(run + rest, CALL, i) {
      AtAppended(run, rest, CALL, i);
    }
    FoundAt(run + rest, CALL, k);
    assert run[k] == run[k..k + |CALL|][0];
  }

  lemma CallBecomesCast(lax: string -> Option<int>, s: string, at: nat)
    requires At(s, CALL, 0)
    ensures RewriteCall(lax, s, at).Ok? ==>
      |RewriteCall(lax, s, at).value.0| > 0 && RewriteCall(lax, s, at).value.0[0] == 'C'
  {
    hide Unescape, Rewrite, Unquote, Hex, Encode;
  }

  /**
   * Exactly when no run of tokens prints the opening of a call, the rewriter
   * keeps every other token as it stands and turns each call into its cast.
   */
  lemma {:induction false} RewriteAfterIsExpected(lax: string -> Option<int>, run: string, ts: seq<Token>, at: nat)
    requires AllEvaluate(lax, ts)
    ensures Rewrite(lax, run + Print(ts), at) == Expected(lax, run, ts) <==> CleanAfter(run, ts)
    decreases |ts|
  {
    hide Rewrite, Evaluates, TranslateOne, PrintOne, PrintOutOne;
    if ts == [] {
      assert run + "" == run;
      if Contains(run, CALL) {
        var _ := DirtyRunIsChanged(lax, run, "", at);
      } else {
        NothingToRewrite(lax, run, at);
      }
    } else if !ts[0].Call? {
      RewriteAfterIsExpected(lax, run + PrintOne(ts[0]), ts[1..], at);
      SameToken(lax, run, ts);
    } else if Contains(run, CALL) {
      var _ := DirtyRunIsChanged(lax, run, Print(ts), at);
    } else {
      RewriteCallFirst(lax, run, ts, at);
      RewriteAfterIsExpected(lax, "", ts[1..], at + |run| + |PrintOne(ts[0])|);
    }
  }

  lemma SameToken(lax: string -> Option<int>, run: string, ts: seq<Token>)
    requires AllEvaluate(lax, ts) && ts != [] && !ts[0].Call?
    ensures run + Print(ts) == run + PrintOne(ts[0]) + Print(ts[1..])
    ensures Expected(lax, run, ts) == Expected(lax, run + PrintOne(ts[0]), ts[1..])
  {
    hide PrintOne, Evaluates;
    var first, tail := PrintOne(ts[0]), PrintOut(Translate(lax, ts[1..]));
    SamePrintOut(lax, ts);
    assert run + (first + tail) == run + first + tail;
    assert run + (first + Print(ts[1..])) == run + first + Print(ts[1..]);
  }

  lemma SamePrintOut(lax: string -> Option<int>, ts: seq<Token>)
    requires AllEvaluate(lax, ts) && ts != [] && !ts[0].Call?
    ensures PrintOut(Translate(lax, ts)) == PrintOne(ts[0]) + PrintOut(Translate(lax, ts[1..]))
  {
    hide PrintOne, Evaluates;
    var outs := Translate(lax, ts);
    assert outs[0] == Same(ts[0]) && outs[1..] == Translate(lax, ts[1..]);
  }

  /** Behind a clean run, the first call is as expected exactly when the tokens behind it are. */
  lemma RewriteCallFirst(lax: string -> Option<int>, run: string, ts: seq<Token>, at: nat)
    requires AllEvaluate(lax, ts) && ts != [] && ts[0].Call? && !Contains(run, CALL)
    ensures Rewrite(lax, run + Print(ts), at) == Expected(lax, run, ts) <==>
      Rewrite(lax, "" + Print(ts[1..]), at + |run| + |PrintOne(ts[0])|) == Expected(lax, "", ts[1..])
  {
    hide PrintOne, Evaluates, Rewrite, TranslateOne, Replacement, PrintOutOne, Onto;
    var body, rest := ts[0].body, Print(ts[1..]);
    var next := at + |run| + |PrintOne(ts[0])|;
    RewriteAfterRun(lax, run, body, rest, at);
    ReplacementOf(lax, body, at + |run|);
    var text := PrintOutOne(TranslateOne(lax, ts[0]));
    OntoOnto(run, 0, text, 1, Rewrite(lax, rest, next));
    ExpectedCall(lax, run, ts);
    OntoIsInjective(run + text, 1, Rewrite(lax, rest, next), PrintOut(Translate(lax, ts[1..])), Calls(ts[1..]));
    assert "" + rest == rest;
  }

  lemma ExpectedCall(lax: string -> Option<int>, run: string, ts: seq<Token>)
    requires AllEvaluate(lax, ts) && ts != [] && ts[0].Call?
    ensures var tail := PrintOut(Translate(lax, ts[1..]));
      && Expected(lax, run, ts) == Ok((run + PrintOutOne(TranslateOne(lax, ts[0])) + tail, 1 + Calls(ts[1..])))
      && Expected(lax, "", ts[1..]) == Ok((tail, Calls(ts[1..])))
  {
    hide Evaluates, TranslateOne, PrintOutOne;
    var text, outs := PrintOutOne(TranslateOne(lax, ts[0])), Translate(lax, ts);
    assert outs[1..] == Translate(lax, ts[1..]);
    var tail := PrintOut(outs[1..]);
    assert run + (text + tail) == run + text + tail && "" + tail == tail;
  }

  lemma OntoIsInjective(out: string, count: nat, rest: Answer, text: string, more: nat)
    ensures Onto(out, count, rest) == Ok((out + text, count + more)) <==> rest == Ok((text, more))
  {
    if Onto(out, count, rest) == Ok((out + text, count + more)) {
      assert (out + text)[|out|..] == text && (out + rest.value.0)[|out|..] == rest.value.0;
    }
  }

  /** The rewritten tokens stand for the same SQL values, in the same places. */
  lemma {:induction false} ValuesAreKept(lax: string -> Option<int>, ts: seq<Token>)
    requires AllEvaluate(lax, ts)
    ensures forall i :: 0 <= i < |ts| ==> ValueOut(lax, Translate(lax, ts)[i]) == Value(lax, ts[i])
    ensures forall i :: 0 <= i < |ts| && !ts[i].Call? ==> Translate(lax, ts)[i] == Same(ts[i])
  {
    if ts != [] {
      ValuesAreKept(lax, ts[1..]);
      if ts[0].Call? {
        var points := Unescape(lax, ts[0].body, 0).value;
        HexRoundTrip(Encode(points));
        Utf8RoundTrip(points, Encode(points));
      }
      forall i | 0 < i < |ts|
        ensures ValueOut(lax, Translate(lax, ts)[i]) == Value(lax, ts[i])
        ensures !ts[i].Call? ==> Translate(lax, ts)[i] == Same(ts[i])
      {
        assert ts[i] == ts[1..][i - 1];
      }
    }
  }

  /** Rewriting a dump preserves what it says exactly when no run of it prints the opening of a call. */
  lemma RewritePreservesMeaning(lax: string -> Option<int>, ts: seq<Token>)
    requires AllEvaluate(lax, ts)
    ensures Rewrite(lax, Print(ts), 0) == Ok((PrintOut(Translate(lax, ts)), Calls(ts))) <==> Clean(ts)
    ensures forall i :: 0 <= i < |ts| ==> ValueOut(lax, Translate(lax, ts)[i]) == Value(lax, ts[i])
    ensures forall i :: 0 <= i < |ts| && !ts[i].Call? ==> Translate(lax, ts)[i] == Same(ts[i])
  {
    hide Rewrite, Evaluates, ValueOut, Value, Print, PrintOut;
    RewriteAfterIsExpected(lax, "", ts, 0);
    ValuesAreKept(lax, ts);
    assert "" + Print(ts) == Print(ts);
    assert "" + PrintOut(Translate(lax, ts)) == PrintOut(Translate(lax, ts));
  }
}
