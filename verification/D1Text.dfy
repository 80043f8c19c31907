/** Searching, splitting and joining text, as the dump rewriter uses them. */
module D1Text {
  import opened Wrappers

  predicate At(s: string, p: string, i: int) { 0 <= i && i + |p| <= |s| && s[i..i + |p|] == p }

  predicate Starts(s: string, p: string) { |p| <= |s| && s[..|p|] == p }

  predicate Contains(s: string, p: string) { exists i :: 0 <= i <= |s| && At(s, p, i) }

  /** The first occurrence of a text. */
  function Find(s: string, p: string): (k: Option<nat>)
    ensures k.None? <==> !Contains(s, p)
    ensures k.Some? ==> At(s, p, k.value) && forall i :: 0 <= i < k.value ==> !At(s, p, i)
  {
    if At(s, p, 0) then Some(0)
    else if s == "" then None
    else
      assert forall i :: 1 <= i ==> At(s, p, i) == At(s[1..], p, i - 1) by { TailAt(s, p); }
      match Find(s[1..], p)
      case None => None
      case Some(k) =>
        assert At(s, p, k + 1);
        Some(k + 1)
  }

  lemma AtAppended(s: string, t: string, p: string, i: nat)
    ensures At(t, p, i) <==> At(s + t, p, |s| + i)
    ensures i + |p| <= |s| ==> (At(s, p, i) <==> At(s + t, p, i))
  {
    if i + |p| <= |t| {
      assert (s + t)[|s| + i..|s| + i + |p|] == t[i..i + |p|];
    }
    if i + |p| <= |s| {
      assert (s + t)[i..i + |p|] == s[i..i + |p|];
    }
  }

  lemma TailAt(s: string, p: string)
    requires s != ""
    ensures forall i :: 1 <= i ==> At(s, p, i) == At(s[1..], p, i - 1)
  {
    hide At;
    assert s == [s[0]] + s[1..];
    forall i | 1 <= i ensures At(s, p, i) == At(s[1..], p, i - 1) {
      AtAppended([s[0]], s[1..], p, i - 1);
    }
  }

  lemma FoundAt(s: string, p: string, k: nat)
    requires At(s, p, k) && forall i :: 0 <= i < k ==> !At(s, p, i)
    ensures Find(s, p) == Some(k)
  {
    assert Contains(s, p);
  }

  // ---- lines -----------------------------------------------------------------------------

  predicate OneLine(line: string) { '\n' !in line }

  predicate AllOneLine(lines: seq<string>) { forall i :: 0 <= i < |lines| ==> OneLine(lines[i]) }

  /** Text split at every newline: never empty, an empty text is one empty line. */
  function Lines(s: string): (lines: seq<string>)
    ensures |lines| > 0 && AllOneLine(lines)
  {
    if s == "" then [""]
    else
      var rest := Lines(s[1..]);
      if s[0] == '\n' then [""] + rest else [[s[0]] + rest[0]] + rest[1..]
  }

  /** Lines joined with newlines. */
  function Join(lines: seq<string>): string {
    if lines == [] then "" else if |lines| == 1 then lines[0] else lines[0] + "\n" + Join(lines[1..])
  }

  lemma {:induction false} JoinLines(s: string)
    ensures Join(Lines(s)) == s
  {
    if s != "" {
      var rest := Lines(s[1..]);
      JoinLines(s[1..]);
      if s[0] == '\n' {
        assert ([""] + rest)[1..] == rest;
      } else {
        assert ([[s[0]] + rest[0]] + rest[1..])[1..] == rest[1..];
        assert Join(Lines(s)) == [s[0]] + Join(rest);
      }
      assert s == [s[0]] + s[1..];
    }
  }

  lemma {:induction false} LinesOfOne(line: string)
    requires OneLine(line)
    ensures Lines(line) == [line]
  {
    if line != "" {
      LinesOfOne(line[1..]);
      assert [line[0]] + line[1..] == line;
    }
  }

  lemma {:induction false} LinesOfMore(line: string, rest: string)
    requires OneLine(line)
    ensures Lines(line + "\n" + rest) == [line] + Lines(rest)
  {
    var s := line + "\n" + rest;
    if line == "" {
      assert s[1..] == rest;
    } else {
      LinesOfMore(line[1..], rest);
      assert s[1..] == line[1..] + "\n" + rest;
      assert [line[0]] + line[1..] == line;
    }
  }

  lemma {:induction false} LinesJoin(lines: seq<string>)
    requires lines != [] && AllOneLine(lines)
    ensures Lines(Join(lines)) == lines
  {
    if |lines| == 1 {
      LinesOfOne(lines[0]);
    } else {
      LinesJoin(lines[1..]);
      LinesOfMore(lines[0], Join(lines[1..]));
    }
  }

  /** A text without newlines occurs in joined lines exactly when one line holds it. */
  lemma {:induction false} ContainsJoined(lines: seq<string>, p: string)
    requires p != "" && OneLine(p)
    ensures Contains(Join(lines), p) <==> exists i :: 0 <= i < |lines| && Contains(lines[i], p)
  {
    if |lines| == 1 {
      assert Join(lines) == lines[0];
    } else if |lines| > 1 {
      var head, tail := lines[0], Join(lines[1..]);
      ContainsJoined(lines[1..], p);
      ContainsEither(head, tail, p);
      if Contains(tail, p) {
        var i :| 0 <= i < |lines[1..]| && Contains(lines[1..][i], p);
        assert Contains(lines[i + 1], p);
      }
      if j :| 0 <= j < |lines| && Contains(lines[j], p) {
        if j > 0 {
          assert lines[1..][j - 1] == lines[j];
        }
      }
    }
  }

  lemma NewlineSeparates(s: string, p: string, i: nat, k: nat)
    requires OneLine(p) && At(s, p, i) && k < |s| && s[k] == '\n'
    ensures k < i || i + |p| <= k
  {
  }

  lemma ContainsEither(head: string, tail: string, p: string)
    requires p != "" && OneLine(p)
    ensures Contains(head + "\n" + tail, p) <==> Contains(head, p) || Contains(tail, p)
  {
    var s := head + "\n" + tail;
    if Contains(s, p) {
      var i :| 0 <= i <= |s| && At(s, p, i);
      NewlineSeparates(s, p, i, |head|);
      if i + |p| <= |head| {
        AtAppended(head, "\n" + tail, p, i);
        assert head + ("\n" + tail) == s;
        assert Contains(head, p);
      } else {
        AtAppended(head + "\n", tail, p, i - |head| - 1);
        assert Contains(tail, p);
      }
    }
    if Contains(head, p) {
      var i :| 0 <= i <= |head| && At(head, p, i);
      AtAppended(head, "\n" + tail, p, i);
      assert head + ("\n" + tail) == s;
      assert At(s, p, i);
    }
    if Contains(tail, p) {
      var i :| 0 <= i <= |tail| && At(tail, p, i);
      AtAppended(head + "\n", tail, p, i);
      assert At(s, p, |head| + 1 + i);
    }
  }

  function Newlines(s: string): nat {
    if s == "" then 0 else (if s[0] == '\n' then 1 else 0) + Newlines(s[1..])
  }

  lemma {:induction false} NewlinesAppend(s: string, t: string)
    ensures Newlines(s + t) == Newlines(s) + Newlines(t)
  {
    if s == "" {
      assert s + t == t;
    } else {
      assert (s + t)[1..] == s[1..] + t;
      NewlinesAppend(s[1..], t);
    }
  }
}
