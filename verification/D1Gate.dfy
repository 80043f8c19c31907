/** Stripping the transaction wrapper, and the gate in front of the written file. */
module D1Gate {
  import opened Wrappers
  import opened D1Text
  import opened D1Utf8
  import opened D1Literals
  import opened D1Rewrite

  // ---- characters ------------------------------------------------------------------------

  /** The characters a line is stripped of. */
  predicate Space(c: char) {
    || 9 as char <= c <= 13 as char || 28 as char <= c <= 32 as char
    || c == '\U{85}' || c == '\U{A0}' || c == '\U{1680}' || '\U{2000}' <= c <= '\U{200A}' || c == '\U{2028}'
    || c == '\U{2029}' || c == '\U{202F}' || c == '\U{205F}' || c == '\U{3000}'
  }

  function LeftStrip(s: string): string {
    if s == "" || !Space(s[0]) then s else LeftStrip(s[1..])
  }

  function RightStrip(s: string): string {
    if s == "" || !Space(s[|s| - 1]) then s else RightStrip(s[..|s| - 1])
  }

  function Strip(s: string): string { RightStrip(LeftStrip(s)) }

  /**
   * The capital form of a character, as far as ASCII goes: the few other
   * characters whose capital form holds ASCII letters are listed, any further
   * one stands for itself, which no keyword contains either way.
   */
  function Capital(c: char): string {
    if 'a' <= c <= 'z' then [(c as int - 32) as char]
    else
      match c
      case '\U{DF}' => "SS"
      case '\U{131}' => "I"
      case '\U{149}' => "\U{2BC}N"
      case '\U{17F}' => "S"
      case '\U{1F0}' => "J\U{30C}"
      case '\U{1E96}' => "H\U{331}"
      case '\U{1E97}' => "T\U{308}"
      case '\U{1E98}' => "W\U{30A}"
      case '\U{1E99}' => "Y\U{30A}"
      case '\U{1E9A}' => "A\U{2BE}"
      case '\U{FB00}' => "FF"
      case '\U{FB01}' => "FI"
      case '\U{FB02}' => "FL"
      case '\U{FB03}' => "FFI"
      case '\U{FB04}' => "FFL"
      case '\U{FB05}' => "ST"
      case '\U{FB06}' => "ST"
      case _ => [c]
  }

  function Capitals(s: string): string {
    if s == "" then "" else Capital(s[0]) + Capitals(s[1..])
  }

  // ---- the wrapper -----------------------------------------------------------------------

  const HEADER_LINES := 5

  predicate IsBegin(line: string) { Strip(line) == "BEGIN TRANSACTION;" }

  predicate IsCommit(line: string) { Strip(line) == "COMMIT;" }

  predicate Blank(line: string) { Strip(line) == "" }

  function Header(lines: seq<string>): nat { if |lines| < HEADER_LINES then |lines| else HEADER_LINES }

  /** The header line that opens the transaction. */
  ghost predicate BeginsAt(lines: seq<string>, b: Option<nat>) {
    match b
    case Some(k) => k < Header(lines) && IsBegin(lines[k]) && forall j :: 0 <= j < k ==> !IsBegin(lines[j])
    case None => forall j :: 0 <= j < Header(lines) ==> !IsBegin(lines[j])
  }

  /** The line that commits: nothing but blank lines and the dropped one behind it. */
  ghost predicate CommitsAt(lines: seq<string>, b: Option<nat>, c: Option<nat>) {
    match c
    case Some(k) => k < |lines| && IsCommit(lines[k]) && LastFilled(lines, b, k)
    case None => forall k :: 0 <= k < |lines| && LastFilled(lines, b, k) ==> !IsCommit(lines[k])
  }

  ghost predicate LastFilled(lines: seq<string>, b: Option<nat>, k: nat) {
    && k < |lines| && Some(k) != b && !Blank(lines[k])
    && forall j :: k < j < |lines| && Some(j) != b ==> Blank(lines[j])
  }

  function Indices(b: Option<nat>): set<nat> {
    match b case None => {} case Some(k) => {k}
  }

  /** The lines whose places are not in a set, in order. */
  function Keep(lines: seq<string>, gone: set<nat>): seq<string> {
    if lines == [] then []
    else
      var n := |lines| - 1;
      Keep(lines[..n], gone) + if n in gone then [] else [lines[n]]
  }

  lemma {:induction false} KeepAll(lines: seq<string>, gone: set<nat>)
    requires forall k :: k in gone ==> |lines| <= k
    ensures Keep(lines, gone) == lines
  {
    if lines != [] {
      KeepAll(lines[..|lines| - 1], gone);
      assert lines == lines[..|lines| - 1] + [lines[|lines| - 1]];
    }
  }

  lemma {:induction false} KeepButOne(lines: seq<string>, k: nat)
    requires k < |lines|
    ensures Keep(lines, {k}) == lines[..k] + lines[k + 1..]
  {
    var n := |lines| - 1;
    if n == k {
      KeepAll(lines[..n], {k});
      assert lines[k + 1..] == [];
    } else {
      KeepButOne(lines[..n], k);
      assert lines[..n][..k] == lines[..k];
      assert lines[k + 1..] == lines[..n][k + 1..] + [lines[n]];
      assert lines[..k] + (lines[..n][k + 1..] + [lines[n]]) == lines[..k] + lines[..n][k + 1..] + [lines[n]];
    }
  }

  lemma {:induction false} KeepButTwo(lines: seq<string>, i: nat, j: nat)
    requires i < j < |lines|
    ensures Keep(lines, {i, j}) == lines[..i] + lines[i + 1..j] + lines[j + 1..]
  {
    var n := |lines| - 1;
    if n == j {
      KeepOnly(lines[..n], i, j);
      KeepButOne(lines[..n], i);
      assert lines[..n][..i] == lines[..i] && lines[..n][i + 1..] == lines[i + 1..j];
      assert lines[j + 1..] == [];
    } else {
      KeepButTwo(lines[..n], i, j);
      assert lines[..n][..i] == lines[..i] && lines[..n][i + 1..j] == lines[i + 1..j];
      assert lines[j + 1..] == lines[..n][j + 1..] + [lines[n]];
    }
  }

  lemma {:induction false} KeepOnly(lines: seq<string>, i: nat, j: nat)
    requires |lines| <= j
    ensures Keep(lines, {i, j}) == Keep(lines, {i})
  {
    if lines != [] {
      KeepOnly(lines[..|lines| - 1], i, j);
    }
  }

  lemma DropEarlier(lines: seq<string>, b: nat, last: nat)
    requires last < b < |lines|
    ensures var left := lines[..b] + lines[b + 1..]; left[..last] + left[last + 1..] == Keep(lines, {last, b})
  {
    hide Keep;
    KeepButTwo(lines, last, b);
    var left := lines[..b] + lines[b + 1..];
    EarlierParts(lines[..b], lines[b + 1..], last);
    assert lines[..b][..last] == lines[..last] && lines[..b][last + 1..] == lines[last + 1..b];
    Regrouped(lines[..last], lines[last + 1..b], lines[b + 1..]);
  }

  lemma EarlierParts(first: seq<string>, rest: seq<string>, k: nat)
    requires k < |first|
    ensures (first + rest)[..k] == first[..k] && (first + rest)[k + 1..] == first[k + 1..] + rest
  {
  }

  lemma Regrouped(a: seq<string>, b: seq<string>, c: seq<string>)
    ensures a + (b + c) == a + b + c
  {
  }

  lemma DropLater(lines: seq<string>, b: nat, last: nat)
    requires b <= last < |lines| - 1
    ensures var left := lines[..b] + lines[b + 1..]; left[..last] + left[last + 1..] == Keep(lines, {b, last + 1})
  {
    hide Keep;
    KeepButTwo(lines, b, last + 1);
    var left := lines[..b] + lines[b + 1..];
    assert left[..last] == lines[..b] + lines[b + 1..last + 1];
    assert left[last + 1..] == lines[last + 2..];
  }

  /** Dropping the opening line, then a place of what is left. */
  lemma DropBoth(lines: seq<string>, b: nat, last: nat)
    requires b < |lines| && last < |lines| - 1
    ensures var left := lines[..b] + lines[b + 1..];
      left[..last] + left[last + 1..] == Keep(lines, {b, if last < b then last else last + 1})
  {
    hide Keep;
    if last < b {
      DropEarlier(lines, b, last);
      assert {last, b} == {b, last};
    } else {
      DropLater(lines, b, last);
    }
  }

  /** The search for the line that opens the transaction. */
  method FindBegin(lines: seq<string>) returns (b: Option<nat>)
    ensures BeginsAt(lines, b)
  {
    for index := 0 to Header(lines)
      invariant forall j :: 0 <= j < index ==> !IsBegin(lines[j])
    {
      if IsBegin(lines[index]) {
        return Some(index);
      }
    }
    return None;
  }

  /** The walk back over blank lines; -1 when every line is blank. */
  method FindLast(lines: seq<string>) returns (last: int)
    ensures -1 <= last < |lines|
    ensures last >= 0 ==> !Blank(lines[last])
    ensures forall j :: last < j < |lines| ==> Blank(lines[j])
  {
    last := |lines| - 1;
    while last >= 0 && Blank(lines[last])
      invariant -1 <= last < |lines|
      invariant forall j :: last < j < |lines| ==> Blank(lines[j])
    {
      last := last - 1;
    }
  }

  /** Where a place of the lines left over stood before the opening line was dropped. */
  function Place(b: Option<nat>, k: int): int {
    if b.Some? && b.value <= k then k + 1 else k
  }

  /** The lines left, in order, when the dump's own BEGIN and COMMIT are gone. */
  ghost predicate Unwraps(lines: seq<string>, kept: seq<string>, stripped: nat) {
    exists b, c ::
      && BeginsAt(lines, b) && CommitsAt(lines, b, c)
      && kept == Keep(lines, Indices(b) + Indices(c)) && stripped == |Indices(b) + Indices(c)|
  }

  /** Drops the wrapper, first the BEGIN and then the COMMIT of what is left. */
  method StripTransactionWrapper(lines: seq<string>)
    returns (kept: seq<string>, stripped: nat)
    ensures Unwraps(lines, kept, stripped)
  {
    hide Keep, Strip;
    kept, stripped := lines, 0;
    var found := FindBegin(lines);
    ghost var c: Option<nat> := None;
    if found.Some? {
      kept := lines[..found.value] + lines[found.value + 1..];
      stripped := 1;
    }
    LeftOver(lines, found, kept);
    var last := FindLast(kept);
    LastPlace(lines, found, kept, last);
    if last >= 0 && IsCommit(kept[last]) {
      c := Some(Place(found, last));
      DropPlace(lines, found, kept, last);
      kept := kept[..last] + kept[last + 1..];
      stripped := stripped + 1;
    } else {
      if found.Some? { KeepButOne(lines, found.value); } else { KeepAll(lines, {}); }
      assert Indices(found) + {} == Indices(found);
    }
    assert BeginsAt(lines, found) && CommitsAt(lines, found, c);
  }

  ghost predicate LeftOf(lines: seq<string>, b: Option<nat>, left: seq<string>) {
    match b
    case None => left == lines
    case Some(k) => k < |lines| && left == lines[..k] + lines[k + 1..]
  }

  lemma LeftOver(lines: seq<string>, b: Option<nat>, left: seq<string>)
    requires LeftOf(lines, b, left)
    ensures forall i :: 0 <= i < |left| ==>
      Place(b, i) < |lines| && left[i] == lines[Place(b, i)] && b != Some(Place(b, i))
  {
  }

  /** Every line but the dropped one is still there. */
  lemma StillThere(lines: seq<string>, b: Option<nat>, left: seq<string>, k: nat) returns (i: nat)
    requires LeftOf(lines, b, left) && k < |lines| && b != Some(k)
    ensures i < |left| && Place(b, i) == k
  {
    i := if b.Some? && b.value < k then k - 1 else k;
  }

  lemma LastPlace(lines: seq<string>, b: Option<nat>, left: seq<string>, last: int)
    requires LeftOf(lines, b, left) && -1 <= last < |left|
    requires forall i :: 0 <= i < |left| ==>
      Place(b, i) < |lines| && left[i] == lines[Place(b, i)] && b != Some(Place(b, i))
    requires last >= 0 ==> !Blank(left[last])
    requires forall j :: last < j < |left| ==> Blank(left[j])
    ensures last >= 0 ==> LastFilled(lines, b, Place(b, last))
    ensures forall k :: LastFilled(lines, b, k) ==> last >= 0 && k == Place(b, last)
  {
    hide Blank;
    forall j | 0 <= j < |lines| && Some(j) != b && (last >= 0 ==> j > Place(b, last)) ensures Blank(lines[j]) {
      var i := StillThere(lines, b, left, j);
      assert left[i] == lines[j];
    }
    if last >= 0 {
      assert left[last] == lines[Place(b, last)];
    }
  }

  lemma DropPlace(lines: seq<string>, b: Option<nat>, left: seq<string>, last: nat)
    requires LeftOf(lines, b, left) && last < |left|
    ensures left[..last] + left[last + 1..] == Keep(lines, Indices(b) + {Place(b, last)})
    ensures |Indices(b) + {Place(b, last)}| == 1 + |Indices(b)|
  {
    if b.Some? {
      DropBoth(lines, b.value, last);
      assert Indices(b) + {Place(b, last)} == {b.value, Place(b, last)};
    } else {
      KeepButOne(lines, last);
      assert Indices(b) + {last} == {last};
    }
  }

  // ---- the gate --------------------------------------------------------------------------

  const TRANSACTION_CONTROL := [
    "BEGIN TRANSACTION", "BEGIN;", "BEGIN DEFERRED", "BEGIN IMMEDIATE", "BEGIN EXCLUSIVE",
    "COMMIT", "END TRANSACTION", "ROLLBACK", "SAVEPOINT ", "RELEASE "
  ]

  const STATEMENT_LIMIT_BYTES := 100000

  predicate ControlsTransaction(line: string) {
    exists k :: 0 <= k < |TRANSACTION_CONTROL| && Starts(Capitals(LeftStrip(line)), TRANSACTION_CONTROL[k])
  }

  function Bytes(line: string): nat { |Encode(PointsOf(line))| }

  datatype Reason = Transaction | Unrewritten | TooLong(bytes: nat)

  /** Why a line would be refused, in the order the reasons are looked for. */
  function Offence(line: string): Option<Reason> {
    if ControlsTransaction(line) then Some(Transaction)
    else if Contains(line, NAME) then Some(Unrewritten)
    else if Bytes(line) > STATEMENT_LIMIT_BYTES then Some(TooLong(Bytes(line)))
    else None
  }

  ghost predicate FirstOffence(lines: seq<string>, number: nat, reason: Reason) {
    && 1 <= number <= |lines| && Offence(lines[number - 1]) == Some(reason)
    && forall i :: 0 <= i < number - 1 ==> Offence(lines[i]) == None
  }

  /** The first line that would be refused, counted from one. */
  method OffendingLine(lines: seq<string>) returns (r: Option<(nat, Reason)>)
    ensures r.Some? ==> FirstOffence(lines, r.value.0, r.value.1)
    ensures r.None? ==> forall i :: 0 <= i < |lines| ==> Offence(lines[i]) == None
  {
    hide Offence;
    for index := 0 to |lines|
      invariant forall i :: 0 <= i < index ==> Offence(lines[i]) == None
    {
      var reason := Offence(lines[index]);
      if reason.Some? {
        return Some((index + 1, reason.value));
      }
    }
    return None;
  }

  datatype Outcome =
    | Failed(refusal: Refusal)
    | Offends(number: nat, reason: Reason)
    | Wrote(text: string, summary: Option<Summary>)

  /** The line printed after writing; taking the maximum of no lines raises instead. */
  datatype Summary = Summary(rewrites: nat, stripped: nat, longest: nat)

  ghost predicate Longest(lines: seq<string>, n: nat) {
    && (exists i :: 0 <= i < |lines| && Bytes(lines[i]) == n)
    && (forall i :: 0 <= i < |lines| ==> Bytes(lines[i]) <= n)
  }

  method LongestLine(lines: seq<string>) returns (longest: nat)
    requires lines != []
    ensures Longest(lines, longest)
  {
    hide Bytes;
    longest := Bytes(lines[0]);
    for i := 1 to |lines|
      invariant exists j :: 0 <= j < i && Bytes(lines[j]) == longest
      invariant forall j :: 0 <= j < i ==> Bytes(lines[j]) <= longest
    {
      var here := Bytes(lines[i]);
      if here > longest {
        longest := here;
      }
    }
  }

  ghost predicate Reports(s: Summary, kept: seq<string>, rewrites: nat, stripped: nat) {
    s.rewrites == rewrites && s.stripped == stripped && Longest(kept, s.longest)
  }

  /** What the gate answers about the lines left: nothing is written unless no line offends. */
  ghost predicate Gated(kept: seq<string>, rewrites: nat, stripped: nat, o: Outcome) {
    match o
    case Failed(_) => false
    case Offends(number, reason) => FirstOffence(kept, number, reason)
    case Wrote(file, summary) =>
      && (forall i :: 0 <= i < |kept| ==> Offence(kept[i]) == None)
      && file == Join(kept)
      && (summary.None? <==> kept == [])
      && (summary.Some? ==> Reports(summary.value, kept, rewrites, stripped))
  }

  /** What one run may answer. */
  ghost predicate Answers(lax: string -> Option<int>, source: string, o: Outcome) {
    match Rewrite(lax, source, 0)
    case Refused(e) => o == Failed(e)
    case Ok((text, rewrites)) =>
      exists kept, stripped :: Unwraps(Lines(text), kept, stripped) && Gated(kept, rewrites, stripped, o)
  }

  method D1ify(lax: string -> Option<int>, source: string) returns (o: Outcome)
    ensures Answers(lax, source, o)
  {
    hide Rewrite, Offence, Longest, Unwraps;
    var rewritten := RewriteUnistr(lax, source);
    if rewritten.Refused? {
      return Failed(rewritten.error);
    }
    var (text, rewrites) := rewritten.value;
    var lines, stripped := StripTransactionWrapper(Lines(text));
    assert forall o :: Gated(lines, rewrites, stripped, o) ==> Answers(lax, source, o);
    var offence := OffendingLine(lines);
    if offence.Some? {
      return Offends(offence.value.0, offence.value.1);
    }
    if lines == [] {
      return Wrote(Join(lines), None);
    }
    var longest := LongestLine(lines);
    return Wrote(Join(lines), Some(Summary(rewrites, stripped, longest)));
  }
}
