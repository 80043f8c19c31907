/** What is true of any file the rewriter writes, and when it stops after writing. */
module D1Written {
  import opened Wrappers
  import opened D1Text
  import opened D1Utf8
  import opened D1Literals
  import opened D1Rewrite
  import opened D1Preserve
  import opened D1Outcome
  import opened D1Gate

  lemma {:induction false} KeptAreLines(lines: seq<string>, gone: set<nat>)
    requires AllOneLine(lines)
    ensures AllOneLine(Keep(lines, gone)) && |Keep(lines, gone)| <= |lines|
  {
    if lines != [] {
      KeptAreLines(lines[..|lines| - 1], gone);
    }
  }

  lemma EmptyLineIsFine()
    ensures Offence("") == None && !Contains("", NAME)
  {
    assert Capitals(LeftStrip("")) == "";
    assert PointsOf("") == [];
  }

  /**
   * A written file holds no `unistr(` and no line the importer would refuse;
   * its lines are the rewritten lines in order without the wrapper.
   */
  lemma WrittenIsAcceptable(lax: string -> Option<int>, source: string, file: string, summary: Option<Summary>)
    requires Answers(lax, source, Wrote(file, summary))
    ensures !Contains(file, NAME)
    ensures forall i :: 0 <= i < |Lines(file)| ==> Offence(Lines(file)[i]) == None
    ensures Rewrite(lax, source, 0).Ok?
    ensures summary.Some? ==> Unwraps(Lines(Rewrite(lax, source, 0).value.0), Lines(file), summary.value.stripped)
    ensures summary.None? ==> exists stripped :: Unwraps(Lines(Rewrite(lax, source, 0).value.0), [], stripped)
  {
    hide Rewrite, Offence, Keep, BeginsAt, CommitsAt, Contains;
    var (text, rewrites) := Rewrite(lax, source, 0).value;
    var kept, stripped :| Unwraps(Lines(text), kept, stripped) && Gated(kept, rewrites, stripped, Wrote(file, summary));
    var b, c :| BeginsAt(Lines(text), b) && CommitsAt(Lines(text), b, c)
      && kept == Keep(Lines(text), Indices(b) + Indices(c)) && stripped == |Indices(b) + Indices(c)|;
    KeptAreLines(Lines(text), Indices(b) + Indices(c));
    EmptyLineIsFine();
    FineFile(kept);
  }

  lemma FineFile(kept: seq<string>)
    requires AllOneLine(kept) && forall i :: 0 <= i < |kept| ==> Offence(kept[i]) == None
    ensures !Contains(Join(kept), NAME) && Lines(Join(kept)) == if kept == [] then [""] else kept
  {
    hide Offence, Contains, Lines, Join, AllOneLine;
    if kept == [] {
      NothingJoined();
    } else {
      LinesJoin(kept);
      NoLineHasName(kept);
      NameIsNowhere(kept);
    }
  }

  lemma NameIsNowhere(kept: seq<string>)
    requires forall i :: 0 <= i < |kept| ==> !Contains(kept[i], NAME)
    ensures !Contains(Join(kept), NAME)
  {
    hide Contains, Join;
    ContainsJoined(kept, NAME);
  }

  lemma NothingJoined()
    ensures Join([]) == "" && Lines("") == [""] && !Contains("", NAME)
  {
    EmptyLineIsFine();
  }

  lemma NoLineHasName(kept: seq<string>)
    requires forall i :: 0 <= i < |kept| ==> Offence(kept[i]) == None
    ensures forall i :: 0 <= i < |kept| ==> !Contains(kept[i], NAME)
  {
    hide Offence, Contains;
    forall i | 0 <= i < |kept| ensures !Contains(kept[i], NAME) {
      FineHasNoName(kept[i]);
    }
  }

  lemma FineHasNoName(line: string)
    requires Offence(line) == None
    ensures !Contains(line, NAME)
  {
  }

  // ---- which lines are refused -----------------------------------------------------------

  predicate AnyCaseOf(text: string, keyword: string) {
    |text| == |keyword| && forall i :: 0 <= i < |text| ==> Capital(text[i]) == [keyword[i]]
  }

  lemma {:induction false} CapitalsOfKeyword(text: string, keyword: string, rest: string)
    requires AnyCaseOf(text, keyword)
    ensures Starts(Capitals(text + rest), keyword)
  {
    if text != "" {
      CapitalsOfKeyword(text[1..], keyword[1..], rest);
      assert (text + rest)[1..] == text[1..] + rest;
      var tail := Capitals(text[1..] + rest);
      assert Capitals(text + rest) == [keyword[0]] + tail;
      assert ([keyword[0]] + tail)[..|keyword|] == [keyword[0]] + tail[..|keyword| - 1];
      assert keyword == [keyword[0]] + keyword[1..];
    }
  }

  lemma {:induction false} LeftStripSkips(blanks: string, rest: string)
    requires (forall i :: 0 <= i < |blanks| ==> Space(blanks[i])) && (rest != "" ==> !Space(rest[0]))
    ensures LeftStrip(blanks + rest) == rest
  {
    if blanks == "" {
      assert blanks + rest == rest;
    } else {
      assert (blanks + rest)[1..] == blanks[1..] + rest;
      LeftStripSkips(blanks[1..], rest);
    }
  }

  /** A line is refused whatever the case of the keyword it begins with and whatever space stands in front. */
  lemma AnyCaseIsRefused(blanks: string, text: string, k: nat, rest: string)
    requires forall i :: 0 <= i < |blanks| ==> Space(blanks[i])
    requires k < |TRANSACTION_CONTROL| && AnyCaseOf(text, TRANSACTION_CONTROL[k])
    ensures Offence(blanks + text + rest) == Some(Transaction)
  {
    KeywordStartsWithLetter(k);
    SpaceIsNoLetter(text[0]);
    LeftStripSkips(blanks, text + rest);
    assert blanks + text + rest == blanks + (text + rest);
    CapitalsOfKeyword(text, TRANSACTION_CONTROL[k], rest);
  }

  lemma KeywordStartsWithLetter(k: nat)
    requires k < |TRANSACTION_CONTROL|
    ensures |TRANSACTION_CONTROL[k]| > 0 && 'A' <= TRANSACTION_CONTROL[k][0] <= 'Z'
  {
  }

  lemma SpaceIsNoLetter(c: char)
    requires |Capital(c)| == 1 && 'A' <= Capital(c)[0] <= 'Z'
    ensures !Space(c)
  {
  }

  // ---- the run that stops after writing --------------------------------------------------

  predicate WrapperOnly(lines: seq<string>) {
    || (|lines| == 1 && (IsBegin(lines[0]) || IsCommit(lines[0])))
    || (|lines| == 2 && IsBegin(lines[0]) && IsCommit(lines[1]))
    || (|lines| == 2 && IsCommit(lines[0]) && IsBegin(lines[1]))
  }

  lemma {:induction false} KeptCount(lines: seq<string>, gone: set<nat>)
    requires forall k :: k in gone ==> k < |lines|
    ensures |Keep(lines, gone)| == |lines| - |gone|
  {
    if lines == [] {
      assert gone == {};
    } else {
      var n := |lines| - 1;
      KeptSame(lines[..n], gone, gone - {n});
      KeptCount(lines[..n], gone - {n});
    }
  }

  lemma {:induction false} KeptSame(lines: seq<string>, gone: set<nat>, other: set<nat>)
    requires forall k :: 0 <= k < |lines| ==> (k in gone <==> k in other)
    ensures Keep(lines, gone) == Keep(lines, other)
  {
    if lines != [] {
      KeptSame(lines[..|lines| - 1], gone, other);
    }
  }

  lemma BeginIsNoCommit(line: string)
    ensures !(IsBegin(line) && IsCommit(line)) && !(Blank(line) && (IsBegin(line) || IsCommit(line)))
  {
  }

  lemma NothingLeftOfWrapper(lines: seq<string>, b: Option<nat>, c: Option<nat>)
    requires WrapperOnly(lines) && BeginsAt(lines, b) && CommitsAt(lines, b, c)
    ensures |Indices(b) + Indices(c)| == |lines|
  {
    hide IsBegin, IsCommit, Blank;
    BeginIsNoCommit(lines[0]);
    if |lines| == 2 {
      BeginIsNoCommit(lines[1]);
      assert LastFilled(lines, b, if IsBegin(lines[0]) then 1 else 0);
    } else {
      assert IsCommit(lines[0]) ==> LastFilled(lines, b, 0);
    }
    BothCount(b, c);
  }

  lemma OnlyWrapperIsLeftEmpty(lines: seq<string>, b: Option<nat>, c: Option<nat>)
    requires lines != [] && BeginsAt(lines, b) && CommitsAt(lines, b, c) && |Indices(b) + Indices(c)| == |lines|
    ensures WrapperOnly(lines)
  {
    hide IsBegin, IsCommit, Blank;
    BothCount(b, c);
  }

  /** Nothing is left of a dump exactly when it is the wrapper and nothing else. */
  lemma NothingLeftIsWrapperOnly(lines: seq<string>, kept: seq<string>, stripped: nat)
    requires lines != [] && Unwraps(lines, kept, stripped)
    ensures kept == [] <==> WrapperOnly(lines)
  {
    hide Keep, WrapperOnly, BeginsAt;
    var b, c :| BeginsAt(lines, b) && CommitsAt(lines, b, c)
      && kept == Keep(lines, Indices(b) + Indices(c)) && stripped == |Indices(b) + Indices(c)|;
    BeginsInside(lines, b);
    KeptCount(lines, Indices(b) + Indices(c));
    if WrapperOnly(lines) {
      NothingLeftOfWrapper(lines, b, c);
    }
    if kept == [] {
      OnlyWrapperIsLeftEmpty(lines, b, c);
    }
  }

  lemma BeginsInside(lines: seq<string>, b: Option<nat>)
    requires BeginsAt(lines, b)
    ensures b.Some? ==> b.value < |lines|
  {
  }

  lemma BothCount(b: Option<nat>, c: Option<nat>)
    requires b.None? || b != c
    ensures |Indices(b) + Indices(c)| == (if b.Some? then 1 else 0) + (if c.Some? then 1 else 0)
  {
    assert Indices(b) !! Indices(c);
  }

  lemma {:induction false} LeftStripKeeps(s: string, c: char)
    requires c in s && !Space(c)
    ensures c in LeftStrip(s)
  {
    if Space(s[0]) {
      assert s == [s[0]] + s[1..];
      LeftStripKeeps(s[1..], c);
    }
  }

  lemma {:induction false} RightStripKeeps(s: string, c: char)
    requires c in s && !Space(c)
    ensures c in RightStrip(s)
  {
    if Space(s[|s| - 1]) {
      assert s == s[..|s| - 1] + [s[|s| - 1]];
      RightStripKeeps(s[..|s| - 1], c);
    }
  }

  /** A line with a `u` or an `X` in it is no line of a wrapper. */
  lemma NoWrapperLine(line: string, c: char)
    requires c in line && (c == 'u' || c == 'X')
    ensures !IsBegin(line) && !IsCommit(line)
  {
    LeftStripKeeps(line, c);
    RightStripKeeps(LeftStrip(line), c);
    assert c !in "BEGIN TRANSACTION;" && c !in "COMMIT;";
  }

  lemma {:induction false} LineOf(s: string, c: char) returns (i: nat)
    requires c in s && c != '\n'
    ensures i < |Lines(s)| && c in Lines(s)[i]
  {
    if s[0] == c {
      i := 0;
    } else {
      assert s == [s[0]] + s[1..];
      var j := LineOf(s[1..], c);
      i := if s[0] == '\n' then j + 1 else j;
    }
  }

  /** A text with a `u` or an `X` in it is no bare wrapper. */
  lemma NoBareWrapper(s: string, c: char)
    requires c in s && (c == 'u' || c == 'X')
    ensures !WrapperOnly(Lines(s))
  {
    hide IsBegin, IsCommit, Lines;
    var i := LineOf(s, c);
    NoWrapperLine(Lines(s)[i], c);
  }

  lemma CallHasU(s: string)
    requires Contains(s, CALL)
    ensures 'u' in s
  {
    var i :| 0 <= i <= |s| && At(s, CALL, i);
    assert s[i..i + |CALL|][0] == s[i];
  }

  /** A rewritten call leaves the `X` of its hexadecimal literal. */
  lemma RewrittenHasX(lax: string -> Option<int>, s: string)
    requires Contains(s, CALL) && Rewrite(lax, s, 0).Ok?
    ensures 'X' in Rewrite(lax, s, 0).value.0
  {
    hide Rewrite, PrintOne, Contains;
    var k, body, rest := FirstCall(lax, s, 0);
    BlobHasX(TranslateOne(lax, Call(body)).hex);
  }

  lemma BlobHasX(hex: string)
    ensures 'X' in PrintOutOne(Blob(hex))
  {
    assert CAST_OPEN[5] == 'X';
    assert PrintOutOne(Blob(hex))[5] == 'X';
  }

  /** Rewriting neither makes a bare wrapper nor changes one. */
  lemma WrapperSurvives(lax: string -> Option<int>, source: string)
    ensures WrapperOnly(Lines(source)) ==> Rewrite(lax, source, 0) == Ok((source, 0))
    ensures Rewrite(lax, source, 0).Ok? && WrapperOnly(Lines(Rewrite(lax, source, 0).value.0)) ==>
      Rewrite(lax, source, 0) == Ok((source, 0))
  {
    hide Rewrite, WrapperOnly, Lines, Contains;
    if Contains(source, CALL) {
      CallHasU(source);
      NoBareWrapper(source, 'u');
      if Rewrite(lax, source, 0).Ok? {
        RewrittenHasX(lax, source);
        NoBareWrapper(Rewrite(lax, source, 0).value.0, 'X');
      }
    } else {
      NothingToRewrite(lax, source, 0);
    }
  }

  /**
   * Whatever a run answers about a dump: it stops after writing an empty file,
   * without its summary, exactly when the dump is a wrapper and nothing else.
   */
  lemma SummaryIsMissingExactly(lax: string -> Option<int>, source: string, o: Outcome)
    requires Answers(lax, source, o)
    ensures o == Wrote("", None) <==> WrapperOnly(Lines(source))
    ensures o.Wrote? && o.summary.None? ==> o.text == ""
  {
    hide Rewrite, Offence, Keep, BeginsAt, CommitsAt, WrapperOnly, Unwraps;
    WrapperSurvives(lax, source);
    if Rewrite(lax, source, 0).Ok? {
      var (text, rewrites) := Rewrite(lax, source, 0).value;
      var kept, stripped :| Unwraps(Lines(text), kept, stripped) && Gated(kept, rewrites, stripped, o);
      NothingLeftIsWrapperOnly(Lines(text), kept, stripped);
    }
  }

  /** Such a dump: the wrapper of an empty database. */
  lemma BareWrapperHasNoSummary(lax: string -> Option<int>, o: Outcome)
    requires Answers(lax, "BEGIN TRANSACTION;\nCOMMIT;", o)
    ensures o == Wrote("", None)
  {
    hide Answers, Lines, IsBegin, IsCommit;
    var b, c := "BEGIN TRANSACTION;", "COMMIT;";
    LinesJoin([b, c]);
    assert [b, c][1..] == [c] && Join([c]) == c;
    assert Join([b, c]) == b + "\n" + c == "BEGIN TRANSACTION;\nCOMMIT;";
    WrapperLines();
    SummaryIsMissingExactly(lax, "BEGIN TRANSACTION;\nCOMMIT;", o);
  }

  lemma WrapperLines()
    ensures IsBegin("BEGIN TRANSACTION;") && IsCommit("COMMIT;")
  {
  }

  // ---- the literal the gate does not see -------------------------------------------------

  /** The gate has no objection to the text that literal becomes. */
  lemma GateMissesTheLiteral()
    ensures Offence("'CAST(X'27' AS TEXT)'") == None
  {
    hide ControlsTransaction, Contains;
    var line := "'CAST(X'27' AS TEXT)'";
    NoKeyword(line);
    NoU(line);
    FewBytes(PointsOf(line));
  }

  lemma NoKeyword(line: string)
    requires line != "" && line[0] == '\''
    ensures !ControlsTransaction(line)
  {
    assert LeftStrip(line) == line;
    assert Capitals(line)[0] == '\'';
    forall k | 0 <= k < |TRANSACTION_CONTROL| ensures !Starts(Capitals(line), TRANSACTION_CONTROL[k]) {
      KeywordStartsWithLetter(k);
      assert |Capitals(line)| > 0 ==> Capitals(line)[0] != TRANSACTION_CONTROL[k][0];
      NotBegun(Capitals(line), TRANSACTION_CONTROL[k]);
    }
  }

  lemma NotBegun(s: string, p: string)
    requires s != "" && p != "" && s[0] != p[0]
    ensures !Starts(s, p)
  {
    if |p| <= |s| {
      assert s[..|p|][0] == s[0];
    }
  }

  lemma NoU(line: string)
    requires 'u' !in line
    ensures !Contains(line, NAME)
  {
    forall i | 0 <= i <= |line| ensures !At(line, NAME, i) {
      if i + |NAME| <= |line| {
        assert line[i..i + |NAME|][0] == line[i];
      }
    }
  }

  lemma {:induction false} FewBytes(points: seq<int>)
    requires Scalars(points)
    ensures |Encode(points)| <= 4 * |points|
  {
    if points != [] {
      FewBytes(points[1..]);
    }
  }
}
