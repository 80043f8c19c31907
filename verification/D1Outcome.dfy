/** What holds of the rewriter's answer for every dump, and the dump it gets wrong. */
module D1Outcome {
  import opened Wrappers
  import opened D1Text
  import opened D1Utf8
  import opened D1Literals
  import opened D1Rewrite
  import opened D1Preserve

  // ---- literals that look like calls -----------------------------------------------------

  /** Doubling the quotes of a text moves no quote in front of its first one. */
  lemma {:induction false} DoubledStarts(v: string, p: string)
    requires '\'' !in p
    ensures Starts(Doubled(v) + "'", p + "'") <==> Starts(v + "'", p + "'")
  {
    var d, w := Doubled(v) + "'", v + "'";
    if p == "" {
      assert d[0] == '\'' <==> v == "" || v[0] == '\'';
      assert d[..1] == [d[0]] && w[..1] == [w[0]] && p + "'" == ['\''];
    } else if v == "" {
      assert d == w;
    } else if v[0] == '\'' {
      assert (p + "'")[0] == p[0] && d[0] == w[0] == '\'';
      assert d[..1] == w[..1];
    } else {
      DoubledStarts(v[1..], p[1..]);
      assert d == [v[0]] + (Doubled(v[1..]) + "'") && w == [v[0]] + (v[1..] + "'");
      StartsTail(v[0], Doubled(v[1..]) + "'", p + "'");
      StartsTail(v[0], v[1..] + "'", p + "'");
      assert (p + "'")[1..] == p[1..] + "'";
    }
  }

  lemma StartsTail(c: char, s: string, p: string)
    requires p != ""
    ensures Starts([c] + s, p) <==> c == p[0] && Starts(s, p[1..])
  {
    if |p| <= |s| + 1 {
      assert ([c] + s)[..|p|] == [c] + s[..|p| - 1];
      assert p == [p[0]] + p[1..];
    }
  }

  predicate Within(s: string, p: string) { Starts(s, p) || (s != "" && Within(s[1..], p)) }

  lemma {:induction false} WithinIsContains(s: string, p: string)
    requires p != ""
    ensures Within(s, p) <==> Contains(s, p)
  {
    assert Starts(s, p) <==> At(s, p, 0);
    if s != "" {
      WithinIsContains(s[1..], p);
      TailAt(s, p);
      if Contains(s[1..], p) {
        var i :| 0 <= i <= |s[1..]| && At(s[1..], p, i);
        assert At(s, p, i + 1);
      }
      if Contains(s, p) && !At(s, p, 0) {
        var i :| 0 <= i <= |s| && At(s, p, i);
        assert At(s[1..], p, i - 1);
      }
    }
  }

  lemma {:induction false} DoubledWithin(v: string)
    ensures Within(Doubled(v) + "'", CALL) <==> Within(v + "'", CALL)
  {
    var d, w := Doubled(v) + "'", v + "'";
    assert CALL == NAME + "'";
    DoubledStarts(v, NAME);
    if v != "" {
      DoubledWithin(v[1..]);
      assert w[1..] == v[1..] + "'";
      var rest := Doubled(v[1..]) + "'";
      if v[0] == '\'' {
        assert d[1..] == "'" + rest && d[1..][1..] == rest;
        assert d[1..][0] == '\'' && CALL[0] == 'u';
        assert !Starts(d[1..], CALL) by { StartsTail('\'', rest, CALL); }
      } else {
        assert d[1..] == rest;
      }
    } else {
      assert d == w;
    }
  }

  /**
   * A text literal prints the opening of a call exactly when its value holds
   * that opening, or ends in the function's name and parenthesis.
   */
  lemma LiteralLooksLikeCall(value: string)
    ensures Contains(PrintOne(Quoted(value)), CALL) <==> Contains(value + "'", CALL)
  {
    var inner := Doubled(value) + "'";
    var printed := PrintOne(Quoted(value));
    assert printed == "'" + inner && printed[1..] == inner;
    StartsTail('\'', inner, CALL);
    DoubledWithin(value);
    WithinIsContains(printed, CALL);
    WithinIsContains(value + "'", CALL);
  }

  /** The value unistr(''), an ordinary text, is rewritten inside its literal. */
  lemma LiteralIsRewritten(lax: string -> Option<int>)
    ensures var ts := [Quoted("unistr('')")];
      && Print(ts) == "'unistr('''')'"
      && !Clean(ts)
      && Rewrite(lax, Print(ts), 0) == Ok(("'CAST(X'27' AS TEXT)'", 1))
  {
    hide Rewrite, PrintOne, CleanAfter, Contains;
    var ts := [Quoted("unistr('')")];
    PrintOfTheLiteral();
    assert ts[1..] == [] && Print([]) == "";
    assert Print(ts) == PrintOne(ts[0]) + "";
    LiteralIsNotClean();
    RewriteOfTheLiteral(lax);
  }

  lemma PrintOfTheLiteral()
    ensures PrintOne(Quoted("unistr('')")) == "'unistr('''')'"
  {
    hide Doubled;
    DoubledTail();
    PlainDoubled(NAME, "'')");
    assert NAME + "'')" == "unistr('')";
    assert "'" + (NAME + "'''')") + "'" == "'unistr('''')'";
  }

  lemma DoubledTail()
    ensures Doubled("'')") == "'''')"
  {
    assert Doubled(")") == ")" by { assert Doubled("") == ""; }
    assert Doubled("')") == "'')" by { assert "')"[1..] == ")"; }
    assert "'')"[1..] == "')";
  }

  lemma LiteralIsNotClean()
    ensures !Clean([Quoted("unistr('')")])
  {
    hide Contains, PrintOne;
    var t := Quoted("unistr('')");
    LiteralLooksLikeCall(t.value);
    HoldsOpening();
    assert [t][1..] == [] && "" + PrintOne(t) == PrintOne(t);
    assert CleanAfter("", [t]) == CleanAfter("" + PrintOne(t), [t][1..]);
  }

  lemma HoldsOpening()
    ensures Contains("unistr('')" + "'", CALL)
  {
    assert ("unistr('')" + "'")[0..0 + |CALL|] == CALL;
    assert At("unistr('')" + "'", CALL, 0);
  }

  lemma RewriteOfTheLiteral(lax: string -> Option<int>)
    ensures Rewrite(lax, "'unistr('''')'", 0) == Ok(("'CAST(X'27' AS TEXT)'", 1))
  {
    hide Rewrite, PrintOne, Replacement, Contains, Find;
    var call := PrintOne(Call("'"));
    BodyOfTheLiteral();
    assert "'" + (call + "'") == "'unistr('''')'";
    QuoteHoldsNothing();
    RewriteAfterRun(lax, "'", "'", "'", 0);
    NothingToRewrite(lax, "'", 0 + 1 + |call|);
    QuoteBecomesHex(lax);
    assert "'" + ("CAST(X'27' AS TEXT)" + "'") == "'CAST(X'27' AS TEXT)'";
  }

  lemma QuoteHoldsNothing()
    ensures !Contains("'", CALL)
  {
  }

  lemma BodyOfTheLiteral()
    ensures PrintOne(Call("'")) == "unistr('''')"
  {
    assert Doubled("'") == "''" by { assert "'"[1..] == "" && Doubled("") == ""; }
  }

  lemma {:induction false} PlainDoubled(p: string, s: string)
    requires '\'' !in p
    ensures Doubled(p + s) == p + Doubled(s)
  {
    if p == "" {
      assert p + s == s;
    } else {
      assert (p + s)[1..] == p[1..] + s;
      PlainDoubled(p[1..], s);
    }
  }

  lemma QuoteBecomesHex(lax: string -> Option<int>)
    ensures Replacement(lax, "'", 1) == Ok("CAST(X'27' AS TEXT)")
  {
    var points := [0x27];
    assert Unescape(lax, "'", 1) == Ok(points) by {
      assert "'"[1..] == "";
      assert Unescape(lax, "", 1) == Ok([]);
      assert '\'' as int == 0x27 && [0x27] + [] == points;
    }
    assert Encode(points) == [0x27] by { assert points[1..] == []; }
    assert Scalars(points);
    assert Hex([0x27]) == "27" by {
      var bytes: seq<Byte> := [0x27];
      assert bytes[1..] == [] && Hex([]) == "";
      assert HexPair(0x27) == "27";
    }
    assert CAST_OPEN + "27" + CAST_CLOSE == "CAST(X'27' AS TEXT)";
  }

  // ---- every accepted dump ---------------------------------------------------------------

  /** A dump read back as plain text and calls. */
  ghost predicate ReadsAs(lax: string -> Option<int>, s: string, ts: seq<Token>) {
    Print(ts) == s && AllEvaluate(lax, ts) && Clean(ts)
  }

  /** A text, up to its first call, that call, and the rest. */
  lemma FirstCall(lax: string -> Option<int>, s: string, at: nat) returns (k: nat, body: string, rest: string)
    requires Contains(s, CALL) && Rewrite(lax, s, at).Ok?
    ensures Find(s, CALL) == Some(k)
    ensures k <= |s| && !Contains(s[..k], CALL) && s == s[..k] + (PrintOne(Call(body)) + rest)
    ensures Evaluates(lax, body) && |rest| < |s|
    ensures Rewrite(lax, rest, at + |s| - |rest|).Ok?
    ensures Rewrite(lax, s, at).value.0 ==
      s[..k] + PrintOutOne(TranslateOne(lax, Call(body))) + Rewrite(lax, rest, at + |s| - |rest|).value.0
  {
    hide Rewrite, RewriteCall, Evaluates, TranslateOne, PrintOne, PrintOutOne, Contains;
    k := Find(s, CALL).value;
    RewriteFound(lax, s, at, k);
    GapIsClean(s, k);
    var gap, here := s[..k], s[k..];
    body, rest := CallAtFront(lax, here, at + k);
    var text := PrintOutOne(TranslateOne(lax, Call(body)));
    var more := Rewrite(lax, rest, at + |s| - |rest|).value.0;
    assert s == gap + here;
    assert gap + (text + more) == gap + text + more;
  }

  lemma GapIsClean(s: string, k: nat)
    requires Find(s, CALL) == Some(k)
    ensures !Contains(s[..k], CALL)
  {
    forall i | 0 <= i <= |s[..k]| ensures !At(s[..k], CALL, i) {
      assert s == s[..k] + s[k..];
      AtAppended(s[..k], s[k..], CALL, i);
    }
  }

  lemma CallAtFront(lax: string -> Option<int>, s: string, at: nat) returns (body: string, rest: string)
    requires At(s, CALL, 0) && RewriteCall(lax, s, at).Ok?
    ensures s == PrintOne(Call(body)) + rest && Evaluates(lax, body) && |rest| < |s|
    ensures Rewrite(lax, rest, at + |s| - |rest|).Ok?
    ensures RewriteCall(lax, s, at).value.0 ==
      PrintOutOne(TranslateOne(lax, Call(body))) + Rewrite(lax, rest, at + |s| - |rest|).value.0
  {
    hide Replacement, Unquote, Doubled, Rewrite, Onto, Evaluates, TranslateOne, PrintOutOne;
    var inner := s[|CALL|..];
    body := Unquote(inner).text;
    var behind := Unquote(inner).rest;
    rest := behind[1..];
    ClosedIsDoubled(inner, body, behind);
    assert s == CALL + inner && behind == ")" + rest;
    assert s == PrintOne(Call(body)) + rest;
    CallReplaced(lax, s, body, behind, at);
    ReplacedText(lax, body, at, Rewrite(lax, rest, at + |s| - |rest|));
  }

  lemma ReplacementEvaluates(lax: string -> Option<int>, body: string, at: nat)
    ensures Replacement(lax, body, at).Ok? <==> Evaluates(lax, body)
  {
    ErrorIgnoresOffset(lax, body, 0, at);
  }

  lemma ReplacedText(lax: string -> Option<int>, body: string, at: nat, rest: Answer)
    ensures Replaced(lax, body, at, rest).Ok? ==>
      && Evaluates(lax, body) && rest.Ok?
      && Replaced(lax, body, at, rest).value.0 == PrintOutOne(TranslateOne(lax, Call(body))) + rest.value.0
  {
    hide Replacement, Evaluates, TranslateOne, PrintOutOne;
    ReplacementEvaluates(lax, body, at);
    if Evaluates(lax, body) {
      ReplacementOf(lax, body, at);
    }
  }

  lemma PlainPrints(text: string)
    ensures "" + PrintOne(Plain(text)) == text
  {
  }

  lemma PlainReads(lax: string -> Option<int>, s: string)
    requires !Contains(s, CALL)
    ensures ReadsAs(lax, s, [Plain(s)] + [])
  {
    hide Contains, Evaluates, CleanAfter;
    PrintCons(Plain(s), []);
    PlainPrints(s);
    assert s + "" == s;
    CleanTokens(s, []);
    assert ([Plain(s)] + [])[0] == Plain(s);
  }

  /** A run of one plain token, then whatever is clean behind it. */
  lemma CleanTokens(gap: string, ts: seq<Token>)
    requires !Contains(gap, CALL) && (ts != [] ==> ts[0].Call? && Clean(ts[1..]))
    ensures Clean([Plain(gap)] + ts)
  {
    hide Contains;
    var all := [Plain(gap)] + ts;
    PlainPrints(gap);
    assert all[1..] == ts;
    assert CleanAfter(gap, ts);
    assert CleanAfter("", all) == CleanAfter("" + PrintOne(all[0]), all[1..]);
  }

  lemma GapAndCallRead(lax: string -> Option<int>, gap: string, body: string, rest: string, tail: seq<Token>)
    requires !Contains(gap, CALL) && Evaluates(lax, body) && ReadsAs(lax, rest, tail)
    ensures ReadsAs(lax, gap + (PrintOne(Call(body)) + rest), [Plain(gap)] + ([Call(body)] + tail))
  {
    hide Contains, Evaluates, CleanAfter;
    var inner := [Call(body)] + tail;
    assert inner[1..] == tail;
    CleanTokens(gap, inner);
    PrintCons(Call(body), tail);
    PrintCons(Plain(gap), inner);
    AllEvaluateTail(lax, inner);
    assert ([Plain(gap)] + inner)[1..] == inner;
    AllEvaluateTail(lax, [Plain(gap)] + inner);
  }

  lemma PrintCons(t: Token, ts: seq<Token>)
    ensures Print([t] + ts) == PrintOne(t) + Print(ts)
  {
    assert ([t] + ts)[1..] == ts;
  }

  /** Whatever dump is accepted is the print of clean, evaluable tokens. */
  lemma {:induction false} AcceptedReads(lax: string -> Option<int>, s: string, at: nat) returns (ts: seq<Token>)
    requires Rewrite(lax, s, at).Ok?
    ensures ReadsAs(lax, s, ts)
    decreases |s|
  {
    hide Rewrite, PrintOutOne, PrintOne, TranslateOne, Evaluates, ReadsAs, Contains;
    if Contains(s, CALL) {
      var k, body, rest := FirstCall(lax, s, at);
      var tail := AcceptedReads(lax, rest, at + |s| - |rest|);
      ts := [Plain(s[..k])] + ([Call(body)] + tail);
      GapAndCallRead(lax, s[..k], body, rest, tail);
    } else {
      ts := [Plain(s)] + [];
      PlainReads(lax, s);
    }
  }

  /**
   * A dump is accepted exactly when it can be read as tokens no run of which
   * prints the opening of a call and each call of which evaluates to text; its
   * output is then the translation of those tokens.
   */
  lemma AcceptedExactlyWhenReadable(lax: string -> Option<int>, s: string)
    ensures Rewrite(lax, s, 0).Ok? <==> exists ts :: ReadsAs(lax, s, ts)
    ensures forall ts :: ReadsAs(lax, s, ts) ==>
      Rewrite(lax, s, 0) == Ok((PrintOut(Translate(lax, ts)), Calls(ts)))
  {
    hide Rewrite, Print, AllEvaluate, Clean, Translate;
    if Rewrite(lax, s, 0).Ok? {
      var ts := AcceptedReads(lax, s, 0);
      assert ReadsAs(lax, s, ts);
    }
    forall ts | ReadsAs(lax, s, ts) ensures Rewrite(lax, s, 0) == Ok((PrintOut(Translate(lax, ts)), Calls(ts))) {
      RewritePreservesMeaning(lax, ts);
    }
  }

  /** Rewriting adds no line: the new text has at most the newlines of the dump. */
  lemma {:induction false} NoNewlineAdded(lax: string -> Option<int>, s: string, at: nat)
    ensures Rewrite(lax, s, at).Ok? ==> Newlines(Rewrite(lax, s, at).value.0) <= Newlines(s)
    decreases |s|
  {
    if Contains(s, CALL) && Rewrite(lax, s, at).Ok? {
      hide Rewrite, PrintOne, TranslateOne, Evaluates;
      var k, body, rest := FirstCall(lax, s, at);
      NoNewlineAdded(lax, rest, at + |s| - |rest|);
      var call, text := PrintOne(Call(body)), PrintOutOne(TranslateOne(lax, Call(body)));
      NewlinesAppend(s[..k], call + rest);
      NewlinesAppend(call, rest);
      NewlinesAppend(s[..k] + text, Rewrite(lax, rest, at + |s| - |rest|).value.0);
      NewlinesAppend(s[..k], text);
      CastIsPlain(lax, body);
    }
  }

  /** A cast holds no newline and no `u`. */
  lemma CastIsPlain(lax: string -> Option<int>, body: string)
    requires Evaluates(lax, body)
    ensures var text := PrintOutOne(TranslateOne(lax, Call(body))); Newlines(text) == 0 && 'u' !in text && |text| > 0
  {
    hide Unescape, Encode, Scalars, Hex, Newlines;
    var hex := Hex(Encode(Unescape(lax, body, 0).value));
    HexIsPlain(Encode(Unescape(lax, body, 0).value));
    var text := CAST_OPEN + hex + CAST_CLOSE;
    assert '\n' !in text && 'u' !in text;
    assert PrintOutOne(TranslateOne(lax, Call(body))) == text;
    NoNewlines(text);
  }

  lemma {:induction false} HexIsPlain(bytes: seq<Byte>)
    ensures 'u' !in Hex(bytes) && '\n' !in Hex(bytes)
  {
    if bytes != [] {
      HexIsPlain(bytes[1..]);
      DigitIsPlain(bytes[0] / 16);
      DigitIsPlain(bytes[0] % 16);
    }
  }

  lemma DigitIsPlain(n: int)
    requires 0 <= n < 16
    ensures HEX[n] != 'u' && HEX[n] != '\n'
  {
  }

  lemma {:induction false} NoNewlines(s: string)
    requires '\n' !in s
    ensures Newlines(s) == 0
  {
    if s != "" {
      NoNewlines(s[1..]);
    }
  }

  /** A text between two others that holds no `u` keeps occurrences apart. */
  lemma PlainSeparates(left: string, text: string, right: string)
    requires !Contains(left, CALL) && !Contains(right, CALL)
    requires |text| > 0 && 'u' !in text && text[0] == 'C'
    ensures !Contains(left + text + right, CALL)
  {
    var s := left + text + right;
    forall i | 0 <= i <= |s| ensures !At(s, CALL, i) {
      AtAppended(left, text + right, CALL, i);
      assert left + (text + right) == s;
      if i >= |left| + |text| {
        AtAppended(left + text, right, CALL, i - |left| - |text|);
      } else if i >= |left| {
        assert s[i] == text[i - |left|];
        UStarts(s, i);
      } else if i + |CALL| > |left| {
        NoCapital(s, i, |left|);
      }
    }
  }

  lemma UStarts(s: string, i: nat)
    ensures At(s, CALL, i) ==> s[i] == 'u'
  {
    if At(s, CALL, i) {
      assert s[i..i + |CALL|][0] == s[i];
    }
  }

  lemma NoCapital(s: string, i: nat, k: nat)
    requires i <= k < i + |CALL| && k < |s| && s[k] == 'C'
    ensures !At(s, CALL, i)
  {
    if i + |CALL| <= |s| {
      assert s[i..i + |CALL|][k - i] == 'C' && CALL[k - i] != 'C';
    }
  }

  /** The rewritten dump holds no opening of a call, so rewriting it again changes nothing. */
  lemma {:induction false} RewrittenIsFinal(lax: string -> Option<int>, s: string, at: nat)
    ensures Rewrite(lax, s, at).Ok? ==>
      var out := Rewrite(lax, s, at).value.0; !Contains(out, CALL) && Rewrite(lax, out, 0) == Ok((out, 0))
    decreases |s|
  {
    if Rewrite(lax, s, at).Ok? {
      if Contains(s, CALL) {
        hide Rewrite, PrintOne, Evaluates;
        var k, body, rest := FirstCall(lax, s, at);
        RewrittenIsFinal(lax, rest, at + |s| - |rest|);
        CastIsPlain(lax, body);
        PlainSeparates(s[..k], PrintOutOne(TranslateOne(lax, Call(body))),
          Rewrite(lax, rest, at + |s| - |rest|).value.0);
      }
      NothingToRewrite(lax, Rewrite(lax, s, at).value.0, 0);
    }
  }

  // ---- what becomes of one literal -------------------------------------------------------

  lemma CallHasOneQuote(i: nat)
    requires i < |CALL| - 1
    ensures CALL[i] != '\''
  {
  }

  lemma CallAt(s: string, k: nat, i: nat)
    requires At(s, CALL, k) && i < |CALL|
    ensures k + i < |s| && s[k + i] == CALL[i]
  {
    assert s[k..k + |CALL|][i] == s[k + i];
  }

  /** A call whose opening spans a place with a quote in it ends its opening there. */
  lemma QuoteEndsOpening(s: string, k: nat, q: nat)
    requires At(s, CALL, k) && k <= q < k + |CALL| && s[q] == '\''
    ensures q == k + |CALL| - 1
  {
    CallAt(s, k, q - k);
    if q - k < |CALL| - 1 {
      CallHasOneQuote(q - k);
    }
  }

  /** Behind a prefix that opens no call, the first call of a dump begins behind the literal's opening quote. */
  lemma CallIsBehind(before: string, inner: string, k: nat)
    requires !Contains(before + "'", CALL) && At(before + "'" + inner, CALL, k)
    ensures k >= |before| + 1
  {
    hide Contains;
    var s := before + "'" + inner;
    if k <= |before| {
      if k + |CALL| <= |before| + 1 {
        AtAppended(before + "'", inner, CALL, k);
        NotContained(before + "'", k);
      } else {
        assert s[|before|] == '\'';
        QuoteEndsOpening(s, k, |before|);
      }
    }
  }

  /** What the rewriter makes of a dump, seen from the first call on. */
  lemma OutputFrom(lax: string -> Option<int>, s: string) returns (k: nat, tail: string)
    requires Contains(s, CALL) && Rewrite(lax, s, 0).Ok?
    ensures Find(s, CALL) == Some(k) && k <= |s| && tail != "" && tail[0] == 'C'
    ensures Rewrite(lax, s, 0).value.0 == s[..k] + tail
  {
    hide Rewrite, PrintOne, PrintOutOne, TranslateOne, Evaluates, Contains, Find;
    var body, rest;
    k, body, rest := FirstCall(lax, s, 0);
    var text := PrintOutOne(TranslateOne(lax, Call(body)));
    var more := Rewrite(lax, rest, |s| - |rest|).value.0;
    CastStartsWithC(lax, body);
    tail := text + more;
    assert s[..k] + text + more == s[..k] + tail;
  }

  lemma CastStartsWithC(lax: string -> Option<int>, body: string)
    requires Evaluates(lax, body)
    ensures var text := PrintOutOne(TranslateOne(lax, Call(body))); text != "" && text[0] == 'C'
  {
    assert CAST_OPEN[0] == 'C';
  }

  /** The first call of a dump begins inside a literal that looks like one, at one of its letters. */
  lemma DirtyLiteralIsMet(before: string, value: string, rest: string, k: nat)
    requires Contains(value + "'", CALL) && !Contains(before + "'", CALL)
    requires Find(before + "'" + (Doubled(value) + "'" + rest), CALL) == Some(k)
    ensures |before| + 1 <= k <= |before| + |Doubled(value)| && Doubled(value)[k - |before| - 1] == 'u'
  {
    hide Contains, Find;
    var printed := PrintOne(Quoted(value));
    var s := before + "'" + (Doubled(value) + "'" + rest);
    assert s == before + (printed + rest);
    FoundThere(s, k);
    CallIsBehind(before, Doubled(value) + "'" + rest, k);
    var j := OpeningIn(value);
    AtAppended(printed, rest, CALL, j);
    AtAppended(before, printed + rest, CALL, j);
    FirstIsLeast(s, k, |before| + j);
    CallAt(s, k, 0);
    assert s[k] == printed[k - |before|];
  }

  /** What is read behind an opening quote is this value, up to its closing quote. */
  predicate ReadsBack(s: string, value: string) { Unquote(s).Closed? && Unquote(s).text == value }

  /** A literal cut short in front of a `u`, where a `C` follows instead, does not read as its value. */
  lemma CutLiteralIsLost(value: string, m: nat, tail: string)
    requires m < |Doubled(value)| && Doubled(value)[m] == 'u' && tail != "" && tail[0] == 'C'
    ensures !ReadsBack(Doubled(value)[..m] + tail, value)
  {
    hide Unquote, Doubled;
    var out := Doubled(value)[..m] + tail;
    var r := if Unquote(out).Closed? then Unquote(out).rest else "";
    DifferAt(out, Doubled(value) + "'" + r, m);
    QuoteRoundTrip(out, value, r);
  }

  lemma DifferAt(a: string, b: string, m: nat)
    requires m < |a| && m < |b| && a[m] != b[m]
    ensures a != b
  {
  }

  lemma WholeLiteralReads(value: string, rest: string)
    requires rest == "" || rest[0] != '\''
    ensures ReadsBack(Doubled(value) + "'" + rest, value)
  {
    hide Unquote, Doubled;
    QuoteRoundTrip(Doubled(value) + "'" + rest, value, rest);
  }

  /** Behind a prefix that ends with the literal's opening quote. */
  lemma BehindQuote(before: string, inner: string, k: nat, tail: string)
    requires |before| + 1 <= k <= |before| + 1 + |inner|
    ensures var out := (before + "'" + inner)[..k] + tail;
      && |out| > |before| && out[..|before| + 1] == before + "'"
      && out[|before| + 1..] == inner[..k - |before| - 1] + tail
  {
  }

  lemma FoundThere(s: string, k: nat)
    requires Find(s, CALL) == Some(k)
    ensures At(s, CALL, k)
  {
  }

  lemma FirstIsLeast(s: string, k: nat, j: nat)
    requires Find(s, CALL) == Some(k) && At(s, CALL, j)
    ensures k <= j
  {
  }

  lemma OpeningIn(value: string) returns (j: nat)
    requires Contains(value + "'", CALL)
    ensures At(PrintOne(Quoted(value)), CALL, j) && j + |CALL| <= |Doubled(value)| + 2
  {
    LiteralLooksLikeCall(value);
    var printed := PrintOne(Quoted(value));
    var i :| 0 <= i <= |printed| && At(printed, CALL, i);
    j := i;
  }

  /** The first call behind a literal that does not look like one begins behind that literal. */
  lemma CleanLiteralIsPassed(before: string, value: string, rest: string, k: nat)
    requires !Contains(value + "'", CALL) && !Contains(before + "'", CALL)
    requires At(before + "'" + (Doubled(value) + "'" + rest), CALL, k)
    ensures k >= |before| + 2 + |Doubled(value)|
  {
    hide Contains;
    var printed := PrintOne(Quoted(value));
    var end := |before| + |printed|;
    var s := before + "'" + (Doubled(value) + "'" + rest);
    CallIsBehind(before, Doubled(value) + "'" + rest, k);
    LiteralLooksLikeCall(value);
    assert s == before + (printed + rest);
    if k < end {
      if k + |CALL| <= end {
        AtAppended(before, printed + rest, CALL, k - |before|);
        AtAppended(printed, rest, CALL, k - |before|);
        NotContained(printed, k - |before|);
      } else {
        assert s[end - 1] == printed[|printed| - 1] == '\'';
        QuoteEndsOpening(s, k, end - 1);
      }
    }
  }

  lemma NotContained(s: string, i: nat)
    requires !Contains(s, CALL)
    ensures !At(s, CALL, i)
  {
  }

  lemma DirtyLiteralIsLost(before: string, value: string, rest: string, k: nat, tail: string)
    requires Contains(value + "'", CALL) && !Contains(before + "'", CALL)
    requires Find(before + "'" + (Doubled(value) + "'" + rest), CALL) == Some(k)
    requires tail != "" && tail[0] == 'C'
    ensures var s := before + "'" + (Doubled(value) + "'" + rest);
      |before| + 1 <= k <= |s| && !ReadsBack((s[..k] + tail)[|before| + 1..], value)
  {
    hide Contains, Find, Doubled, ReadsBack;
    DirtyLiteralIsMet(before, value, rest, k);
    BehindQuote(before, Doubled(value) + "'" + rest, k, tail);
    var m := k - |before| - 1;
    assert (Doubled(value) + "'" + rest)[..m] == Doubled(value)[..m];
    CutLiteralIsLost(value, m, tail);
  }

  lemma CleanLiteralIsKept(before: string, value: string, rest: string, k: nat, tail: string)
    requires !Contains(value + "'", CALL) && !Contains(before + "'", CALL) && (rest == "" || rest[0] != '\'')
    requires Find(before + "'" + (Doubled(value) + "'" + rest), CALL) == Some(k)
    requires tail != "" && tail[0] == 'C'
    ensures var s := before + "'" + (Doubled(value) + "'" + rest);
      |before| + 1 <= k <= |s| && ReadsBack((s[..k] + tail)[|before| + 1..], value)
  {
    hide Contains, Find, Doubled, ReadsBack;
    var inner := Doubled(value) + "'";
    FoundThere(before + "'" + (inner + rest), k);
    CleanLiteralIsPassed(before, value, rest, k);
    BehindQuote(before, inner + rest, k, tail);
    var left := rest[..k - |before| - 1 - |inner|];
    assert (inner + rest)[..k - |before| - 1] + tail == inner + (left + tail);
    WholeLiteralReads(value, left + tail);
  }

  /**
   * A text literal anywhere in an accepted dump, behind a prefix that opens no
   * call: the output begins with that prefix and a quote, and what is read from
   * there is still the literal's value exactly when the value neither holds the
   * opening of a call nor ends in the function's name and parenthesis.
   */
  lemma LiteralKeepsItsValueExactly(lax: string -> Option<int>, before: string, value: string, rest: string)
    requires !Contains(before + "'", CALL) && (rest == "" || rest[0] != '\'')
    requires Rewrite(lax, before + "'" + (Doubled(value) + "'" + rest), 0).Ok?
    ensures var out := Rewrite(lax, before + "'" + (Doubled(value) + "'" + rest), 0).value.0;
      && |out| > |before| && out[..|before| + 1] == before + "'"
      && (ReadsBack(out[|before| + 1..], value) <==> !Contains(value + "'", CALL))
  {
    hide Rewrite, Contains, Find, Doubled, ReadsBack;
    var inner := Doubled(value) + "'";
    var s := before + "'" + (inner + rest);
    if Contains(s, CALL) {
      var k, tail := OutputFrom(lax, s);
      FoundThere(s, k);
      CallIsBehind(before, inner + rest, k);
      BehindQuote(before, inner + rest, k, tail);
      if Contains(value + "'", CALL) {
        DirtyLiteralIsLost(before, value, rest, k, tail);
      } else {
        CleanLiteralIsKept(before, value, rest, k, tail);
      }
    } else {
      NothingToRewrite(lax, s, 0);
      if Contains(value + "'", CALL) {
        DirtyLiteralIsFound(before, value, rest);
      }
      BehindQuote(before, inner + rest, |s|, "");
      assert s[..|s|] + "" == s && (inner + rest)[..|inner + rest|] + "" == inner + rest;
      WholeLiteralReads(value, rest);
    }
  }

  lemma DirtyLiteralIsFound(before: string, value: string, rest: string)
    requires Contains(value + "'", CALL)
    ensures Contains(before + "'" + (Doubled(value) + "'" + rest), CALL)
  {
    var j := OpeningIn(value);
    var printed := PrintOne(Quoted(value));
    AtAppended(printed, rest, CALL, j);
    AtAppended(before, printed + rest, CALL, j);
    assert before + (printed + rest) == before + "'" + (Doubled(value) + "'" + rest);
  }

  /** A dump of tokens without look-alikes is accepted exactly when every call in it evaluates to text. */
  lemma {:induction false} CleanIsAccepted(lax: string -> Option<int>, run: string, ts: seq<Token>, at: nat)
    requires CleanAfter(run, ts)
    ensures Rewrite(lax, run + Print(ts), at).Ok? <==> AllEvaluate(lax, ts)
    decreases |ts|
  {
    hide Rewrite, PrintOne, Evaluates, Replaced, Contains;
    if ts == [] {
      assert run + "" == run;
      NothingToRewrite(lax, run, at);
    } else if !ts[0].Call? {
      CleanIsAccepted(lax, run + PrintOne(ts[0]), ts[1..], at);
      assert run + Print(ts) == run + PrintOne(ts[0]) + Print(ts[1..]);
      AllEvaluateTail(lax, ts);
    } else {
      var next := at + |run| + |PrintOne(ts[0])|;
      var rest := Print(ts[1..]);
      CleanIsAccepted(lax, "", ts[1..], next);
      assert "" + rest == rest;
      RewriteAfterRun(lax, run, ts[0].body, rest, at);
      ReplacedWhenEvaluates(lax, ts[0].body, at + |run|, Rewrite(lax, rest, next));
      AllEvaluateTail(lax, ts);
    }
  }

  lemma AllEvaluateTail(lax: string -> Option<int>, ts: seq<Token>)
    requires ts != []
    ensures AllEvaluate(lax, ts) <==> (ts[0].Call? ==> Evaluates(lax, ts[0].body)) && AllEvaluate(lax, ts[1..])
  {
    hide Evaluates;
    assert ts == [ts[0]] + ts[1..];
    if AllEvaluate(lax, ts) {
      forall i | 0 <= i < |ts[1..]| && ts[1..][i].Call? ensures Evaluates(lax, ts[1..][i].body) {
        assert ts[i + 1] == ts[1..][i];
      }
    }
  }

  lemma ReplacedWhenEvaluates(lax: string -> Option<int>, body: string, at: nat, rest: Answer)
    ensures Replaced(lax, body, at, rest).Ok? <==> Evaluates(lax, body) && rest.Ok?
  {
    hide Replacement, Evaluates;
    ReplacementEvaluates(lax, body, at);
  }
}
