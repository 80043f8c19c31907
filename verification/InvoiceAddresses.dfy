/** The address box: one address a line, `email` or `Name <email>`. */
module InvoiceAddresses {
  import opened Wrappers

  datatype Address = Address(name: string, email: string)

  datatype Problem = NotAnAddress(line: string) | BadName(line: string)

  // ---- characters ------------------------------------------------------------------------

  /** What trim() removes and \s matches. */
  predicate Space(c: char) {
    || 9 as char <= c <= 13 as char || c == ' '
    || c == '\U{A0}' || c == '\U{1680}' || '\U{2000}' <= c <= '\U{200A}' || c == '\U{2028}' || c == '\U{2029}'
    || c == '\U{202F}' || c == '\U{205F}' || c == '\U{3000}' || c == '\U{FEFF}'
  }

  /** What a dot does not match. */
  predicate Terminator(c: char) { c == '\n' || c == '\r' || c == '\U{2028}' || c == '\U{2029}' }

  predicate Control(c: char) { c < ' ' || '\U{7F}' <= c <= '\U{9F}' }

  predicate AllSpace(s: string) { forall i :: 0 <= i < |s| ==> Space(s[i]) }

  predicate AllDot(s: string) { forall i :: 0 <= i < |s| ==> !Terminator(s[i]) }

  /** Length in 16-bit code units. */
  function Units(s: string): nat {
    if s == "" then 0 else (if s[0] < '\U{10000}' then 1 else 2) + Units(s[1..])
  }

  function LeftTrim(s: string): string {
    if s == "" || !Space(s[0]) then s else LeftTrim(s[1..])
  }

  function RightTrim(s: string): string {
    if s == "" || !Space(s[|s| - 1]) then s else RightTrim(s[..|s| - 1])
  }

  function Trim(s: string): string { RightTrim(LeftTrim(s)) }

  predicate Trimmed(s: string) { s == "" || (!Space(s[0]) && !Space(s[|s| - 1])) }

  /** What left-trimming removes is space, and it stops at something else. */
  lemma {:induction false} LeftTrimSplits(s: string) returns (k: nat)
    ensures k <= |s| && LeftTrim(s) == s[k..] && AllSpace(s[..k])
    ensures LeftTrim(s) == "" || !Space(LeftTrim(s)[0])
  {
    hide Space;
    if s == "" || !Space(s[0]) {
      k := 0;
    } else {
      var rest := LeftTrimSplits(s[1..]);
      k := rest + 1;
      assert s[1..][rest..] == s[k..];
      SpaceBefore(s, rest);
    }
  }

  lemma SpaceBefore(s: string, k: nat)
    requires s != "" && Space(s[0]) && k < |s| && AllSpace(s[1..][..k])
    ensures AllSpace(s[..k + 1])
  {
    hide Space;
    var front := s[..k + 1];
    forall i | 0 <= i < |front| ensures Space(front[i]) {
      if i > 0 {
        assert s[1..][..k][i - 1] == s[i];
      }
    }
  }

  lemma {:induction false} RightTrimSplits(s: string) returns (k: nat)
    ensures k <= |s| && RightTrim(s) == s[..k] && AllSpace(s[k..])
    ensures RightTrim(s) == "" || !Space(RightTrim(s)[|RightTrim(s)| - 1])
  {
    hide Space;
    if s == "" || !Space(s[|s| - 1]) {
      k := |s|;
      assert s[..k] == s;
    } else {
      var n := |s| - 1;
      k := RightTrimSplits(s[..n]);
      assert s[..n][..k] == s[..k];
      SpaceAfter(s, k);
    }
  }

  lemma SpaceAfter(s: string, k: nat)
    requires s != "" && Space(s[|s| - 1]) && k < |s| && AllSpace(s[..|s| - 1][k..])
    ensures AllSpace(s[k..])
  {
    hide Space;
    var back := s[k..];
    forall i | 0 <= i < |back| ensures Space(back[i]) {
      if i < |s| - 1 - k {
        assert s[..|s| - 1][k..][i] == s[k + i];
      }
    }
  }

  lemma TrimIsTrimmed(s: string)
    ensures Trimmed(Trim(s))
    ensures Trimmed(s) ==> Trim(s) == s
  {
    hide Space;
    var _ := LeftTrimSplits(s);
    var _ := RightTrimSplits(LeftTrim(s));
  }

  /** Right-trimming stops at the first place behind which all is space. */
  lemma {:induction false} RightTrimUnique(head: string, blanks: string)
    requires AllSpace(blanks) && (head == "" || !Space(head[|head| - 1]))
    ensures RightTrim(head + blanks) == head
  {
    hide Space;
    var s := head + blanks;
    if blanks == "" {
      assert s == head;
    } else {
      assert s[..|s| - 1] == head + blanks[..|blanks| - 1];
      RightTrimUnique(head, blanks[..|blanks| - 1]);
    }
  }

  // ---- the named form --------------------------------------------------------------------

  predicate Plain(s: string) { '<' !in s && '>' !in s }

  /** The last `<` of a text. */
  function LastOpen(s: string): (k: Option<nat>)
    ensures k.Some? ==> k.value < |s| && s[k.value] == '<' && '<' !in s[k.value + 1..]
    ensures k.None? ==> '<' !in s
  {
    if s == "" then None
    else if s[|s| - 1] == '<' then Some(|s| - 1)
    else
      var rest := LastOpen(s[..|s| - 1]);
      assert s == s[..|s| - 1] + [s[|s| - 1]];
      assert rest.Some? ==> s[rest.value + 1..] == s[..|s| - 1][rest.value + 1..] + [s[|s| - 1]];
      rest
  }

  /** The name and the address between the brackets of a line that has them. */
  function Named(line: string): Option<(string, string)> {
    if line == "" || line[|line| - 1] != '>' then None
    else
      match LastOpen(line)
      case None => None
      case Some(p) =>
        var inner := line[p + 1..|line| - 1];
        var group := RightTrim(line[..p]);
        if inner == "" || '>' in inner || !AllDot(group) then None else Some((group, inner))
  }

  /** One way the pattern matches: a group of dots, blanks, then a bracketed run without brackets. */
  predicate Matches(line: string, group: string, blanks: string, inner: string) {
    && line == group + blanks + "<" + inner + ">"
    && AllDot(group) && AllSpace(blanks) && inner != "" && Plain(inner)
  }

  lemma {:induction false} LastOpenUnique(head: string, tail: string)
    requires '<' !in tail
    ensures LastOpen(head + "<" + tail) == Some(|head|)
  {
    var s := head + "<" + tail;
    if tail != "" {
      LastOpenUnique(head, tail[..|tail| - 1]);
      assert s[..|s| - 1] == head + "<" + tail[..|tail| - 1];
      assert s[|s| - 1] == tail[|tail| - 1];
    }
  }

  /** Where the parts of a bracketed line are. */
  lemma BracketsSplit(front: string, inner: string)
    requires Plain(inner)
    ensures var line := front + "<" + inner + ">";
      && line[|line| - 1] == '>' && LastOpen(line) == Some(|front|)
      && line[..|front|] == front && line[|front| + 1..|line| - 1] == inner
  {
    hide LastOpen;
    var line := front + "<" + inner + ">";
    assert front + "<" + (inner + ">") == line;
    LastOpenUnique(front, inner + ">");
  }

  lemma NamedMatches(line: string) returns (blanks: string)
    requires Named(line).Some?
    ensures Matches(line, Named(line).value.0, blanks, Named(line).value.1)
  {
    hide RightTrim, AllDot, AllSpace, LastOpen;
    var p := LastOpen(line).value;
    var (group, inner) := Named(line).value;
    var front := line[..p];
    var k := RightTrimSplits(front);
    blanks := front[k..];
    assert front == group + blanks;
    assert line[p + 1..] == inner + ">";
    assert line == front + "<" + inner + ">";
  }

  lemma MatchIsNamed(line: string, group: string, blanks: string, inner: string)
    requires Matches(line, group, blanks, inner)
    ensures Named(line) == Some((RightTrim(group + blanks), inner)) && |RightTrim(group + blanks)| <= |group|
  {
    hide LastOpen, RightTrim, AllDot, AllSpace;
    BracketsSplit(group + blanks, inner);
    TrimOfMatch(group, blanks);
  }

  /**
   * The lazy pattern answers with the shortest group that matches, or not at
   * all when none does.
   */
  lemma NamedIsShortestMatch(line: string)
    ensures Named(line).Some? ==> exists blanks :: Matches(line, Named(line).value.0, blanks, Named(line).value.1)
    ensures forall group, blanks, inner :: Matches(line, group, blanks, inner) ==>
      Named(line).Some? && Named(line).value.1 == inner && |Named(line).value.0| <= |group|
  {
    hide Named, Matches, RightTrim;
    if Named(line).Some? {
      var blanks := NamedMatches(line);
      assert Matches(line, Named(line).value.0, blanks, Named(line).value.1);
    }
    forall group, blanks, inner | Matches(line, group, blanks, inner)
      ensures Named(line).Some? && Named(line).value.1 == inner && |Named(line).value.0| <= |group|
    {
      MatchIsNamed(line, group, blanks, inner);
    }
  }

  lemma {:induction false} TrimOfMatch(group: string, blanks: string)
    requires AllDot(group) && AllSpace(blanks)
    ensures AllDot(RightTrim(group + blanks)) && |RightTrim(group + blanks)| <= |group|
  {
    hide Space, Terminator;
    var k := RightTrimSplits(group);
    assert group + blanks == group[..k] + (group[k..] + blanks);
    RightTrimUnique(group[..k], group[k..] + blanks);
  }

  // ---- one address -----------------------------------------------------------------------

  predicate Atom(s: string) {
    s != "" && forall i :: 0 <= i < |s| ==> !Space(s[i]) && s[i] != '<' && s[i] != '>' && s[i] != '@'
  }

  /** Something, one @, and a domain with a dot inside it. */
  predicate EmailShape(s: string) {
    exists at, dot :: 0 <= at < dot < |s| && s[at] == '@' && s[dot] == '.'
      && Atom(s[..at]) && Atom(s[at + 1..dot]) && Atom(s[dot + 1..])
  }

  predicate GoodEmail(email: string) { Units(email) <= 254 && EmailShape(email) }

  predicate GoodName(name: string) {
    Units(name) <= 200 && forall i :: 0 <= i < |name| ==> !Control(name[i])
  }

  /** A trimmed line that is not empty, as an address. */
  function ParseLine(line: string): Result<Address, Problem> {
    var named := Named(line);
    var name := if named.None? then "" else Trim(named.value.0);
    var email := Trim(if named.None? then line else named.value.1);
    if !GoodEmail(email) then Refused(NotAnAddress(line))
    else if !GoodName(name) then Refused(BadName(line))
    else Ok(Address(name, email))
  }

  function PrintLine(a: Address): string {
    if Trim(a.name) == "" then a.email else a.name + " <" + a.email + ">"
  }

  // ---- the box ---------------------------------------------------------------------------

  /** Text split at every newline, with the carriage return in front of it if there is one. */
  function Split(raw: string): (lines: seq<string>)
    ensures |lines| > 0
  {
    if raw == "" then [""]
    else if raw[0] == '\n' then [""] + Split(raw[1..])
    else if |raw| > 1 && raw[0] == '\r' && raw[1] == '\n' then [""] + Split(raw[2..])
    else
      var rest := Split(raw[1..]);
      [[raw[0]] + rest[0]] + rest[1..]
  }

  function Join(lines: seq<string>): string {
    if lines == [] then "" else if |lines| == 1 then lines[0] else lines[0] + "\n" + Join(lines[1..])
  }

  function PrintAll(l: seq<Address>): seq<string> {
    if l == [] then [] else [PrintLine(l[0])] + PrintAll(l[1..])
  }

  function PrintLines(l: seq<Address>): string { Join(PrintAll(l)) }

  /** Every line that is not blank, as an address; the first wrong one is the answer. */
  function ParseAll(lines: seq<string>): Result<seq<Address>, Problem> {
    if lines == [] then Ok([])
    else
      var n := |lines| - 1;
      match ParseAll(lines[..n])
      case Refused(e) => Refused(e)
      case Ok(before) =>
        var line := Trim(lines[n]);
        if line == "" then Ok(before)
        else
          match ParseLine(line)
          case Refused(e) => Refused(e)
          case Ok(a) => Ok(before + [a])
  }

  function Key(fold: string -> string, a: Address): string { fold(a.email) }

  predicate Listed(fold: string -> string, l: seq<Address>, key: string) {
    exists i :: 0 <= i < |l| && Key(fold, l[i]) == key
  }

  /** The addresses no earlier one shares its key with, in order. */
  function FirstOfEach(fold: string -> string, l: seq<Address>): seq<Address> {
    if l == [] then []
    else
      var n := |l| - 1;
      FirstOfEach(fold, l[..n]) + if Listed(fold, l[..n], Key(fold, l[n])) then [] else [l[n]]
  }

  function Parse(fold: string -> string, raw: string): Result<seq<Address>, Problem> {
    match ParseAll(Split(raw))
    case Refused(e) => Refused(e)
    case Ok(l) => Ok(FirstOfEach(fold, l))
  }

  /** What the loop has read after some lines. */
  ghost predicate Read(fold: string -> string, lines: seq<string>, addresses: seq<Address>, seen: set<string>) {
    && ParseAll(lines).Ok?
    && addresses == FirstOfEach(fold, ParseAll(lines).value)
    && forall key :: key in seen <==> Listed(fold, ParseAll(lines).value, key)
  }

  method ParseInvoiceAddressLines(fold: string -> string, raw: string) returns (r: Result<seq<Address>, Problem>)
    ensures r == Parse(fold, raw)
  {
    hide Read, ParseLine, FirstOfEach, ParseAll;
    var addresses: seq<Address>, seen: set<string> := [], {};
    var lines := Split(raw);
    NothingRead(fold);
    for i := 0 to |lines|
      invariant Read(fold, lines[..i], addresses, seen)
    {
      assert lines[..i + 1] == lines[..i] + [lines[i]];
      var line := Trim(lines[i]);
      ReadLine(fold, lines[..i], lines[i], addresses, seen);
      if line == "" { continue; }
      var one := ParseLine(line);
      if one.Refused? {
        RefusedEarly(lines, i + 1, one.error);
        return Refused(one.error);
      }
      var key := fold(one.value.email);
      if key in seen { continue; }
      seen := seen + {key};
      addresses := addresses + [one.value];
    }
    assert lines[..|lines|] == lines;
    ReadAll(fold, lines, addresses, seen);
    return Ok(addresses);
  }

  lemma NothingRead(fold: string -> string)
    ensures Read(fold, [], [], {})
  {
  }

  lemma ReadAll(fold: string -> string, lines: seq<string>, addresses: seq<Address>, seen: set<string>)
    requires Read(fold, lines, addresses, seen)
    ensures ParseAll(lines).Ok? && addresses == FirstOfEach(fold, ParseAll(lines).value)
  {
  }

  /** One more line, whichever way the loop goes. */
  lemma ReadLine(fold: string -> string, lines: seq<string>, raw: string, addresses: seq<Address>, seen: set<string>)
    requires Read(fold, lines, addresses, seen)
    ensures Trim(raw) == "" ==> Read(fold, lines + [raw], addresses, seen)
    ensures Trim(raw) != "" && ParseLine(Trim(raw)).Refused? ==>
      ParseAll(lines + [raw]) == Refused(ParseLine(Trim(raw)).error)
    ensures Trim(raw) != "" && ParseLine(Trim(raw)).Ok? ==>
      var a := ParseLine(Trim(raw)).value;
      if fold(a.email) in seen then Read(fold, lines + [raw], addresses, seen)
      else Read(fold, lines + [raw], addresses + [a], seen + {fold(a.email)})
  {
    hide ParseLine, Trim;
    var all := lines + [raw];
    assert all[..|lines|] == lines;
    if Trim(raw) != "" && ParseLine(Trim(raw)).Ok? {
      var a, l := ParseLine(Trim(raw)).value, ParseAll(lines).value;
      assert ParseAll(all) == Ok(l + [a]);
      FirstOfEachSnoc(fold, l, a);
      forall key ensures Listed(fold, l + [a], key) <==> Listed(fold, l, key) || key == fold(a.email) {
        ListedSnoc(fold, l, a, key);
      }
    }
  }

  lemma FirstOfEachSnoc(fold: string -> string, l: seq<Address>, a: Address)
    ensures FirstOfEach(fold, l + [a]) == FirstOfEach(fold, l) + if Listed(fold, l, Key(fold, a)) then [] else [a]
  {
    assert (l + [a])[..|l|] == l;
  }

  lemma ListedSnoc(fold: string -> string, l: seq<Address>, a: Address, key: string)
    ensures Listed(fold, l + [a], key) <==> Listed(fold, l, key) || key == Key(fold, a)
  {
    if Listed(fold, l, key) {
      var i :| 0 <= i < |l| && Key(fold, l[i]) == key;
      assert (l + [a])[i] == l[i];
    }
    assert (l + [a])[|l|] == a;
  }

  lemma {:induction false} RefusedEarly(lines: seq<string>, i: nat, e: Problem)
    requires i <= |lines| && ParseAll(lines[..i]) == Refused(e)
    ensures ParseAll(lines) == Refused(e)
  {
    if i < |lines| {
      var n := |lines| - 1;
      assert lines[..n][..i] == lines[..i];
      RefusedEarly(lines[..n], i, e);
    } else {
      assert lines[..i] == lines;
    }
  }

  // ---- printing and parsing are inverses ---------------------------------------------------

  /** An address the box can say: a good email, and a trimmed good name a dot matches throughout. */
  predicate Canonical(a: Address) {
    GoodEmail(a.email) && GoodName(a.name) && Trimmed(a.name) && AllDot(a.name)
  }

  ghost predicate CanonicalList(fold: string -> string, l: seq<Address>) {
    && (forall i :: 0 <= i < |l| ==> Canonical(l[i]))
    && (forall i, j :: 0 <= i < j < |l| ==> Key(fold, l[i]) != Key(fold, l[j]))
  }

  lemma EmailChars(s: string)
    requires EmailShape(s)
    ensures s != "" && forall i :: 0 <= i < |s| ==> !Space(s[i]) && s[i] != '<' && s[i] != '>'
  {
    var at, dot :| 0 <= at < dot < |s| && s[at] == '@' && s[dot] == '.'
      && Atom(s[..at]) && Atom(s[at + 1..dot]) && Atom(s[dot + 1..]);
    forall i | 0 <= i < |s| ensures !Space(s[i]) && s[i] != '<' && s[i] != '>' {
      if i < at {
        assert s[i] == s[..at][i];
      } else if at < i < dot {
        assert s[i] == s[at + 1..dot][i - at - 1];
      } else if dot < i {
        assert s[i] == s[dot + 1..][i - dot - 1];
      }
    }
  }

  lemma BareLineParses(email: string)
    requires GoodEmail(email)
    ensures Trim(email) == email && email != "" && ParseLine(email) == Ok(Address("", email))
  {
    hide EmailShape;
    EmailChars(email);
    TrimIsTrimmed(email);
    assert Units("") == 0;
  }

  function NamedLine(name: string, email: string): string { name + " <" + email + ">" }

  lemma NamedLineTrimmed(name: string, email: string)
    requires name != "" && Trimmed(name)
    ensures Trim(NamedLine(name, email)) == NamedLine(name, email)
  {
    TrimIsTrimmed(NamedLine(name, email));
  }

  lemma NamedLineMatches(name: string, email: string)
    requires GoodEmail(email) && Trimmed(name)
    ensures Named(NamedLine(name, email)) == if AllDot(name) then Some((name, email)) else None
  {
    hide EmailShape, Units;
    EmailChars(email);
    var line := NamedLine(name, email);
    assert name + " " + "<" + email + ">" == line;
    BracketsSplit(name + " ", email);
    RightTrimUnique(name, " ");
  }

  /** Every canonical address is read back from its own line. */
  lemma LineRoundTrip(a: Address)
    requires Canonical(a)
    ensures Trim(PrintLine(a)) == PrintLine(a) && PrintLine(a) != "" && ParseLine(PrintLine(a)) == Ok(a)
  {
    hide EmailShape, Units, Named, AllDot, Trim, Trimmed;
    TrimIsTrimmed(a.name);
    if a.name == "" {
      BareLineParses(a.email);
    } else {
      NamedLineTrimmed(a.name, a.email);
      NamedLineMatches(a.name, a.email);
      assert NamedLine(a.name, a.email) != "";
      BareLineParses(a.email);
    }
  }

  /** A name holding a line or paragraph separator passes every check but cannot be typed back. */
  lemma SeparatorInNameIsRefused(a: Address)
    requires GoodEmail(a.email) && GoodName(a.name) && Trimmed(a.name) && !AllDot(a.name)
    ensures ParseLine(Trim(PrintLine(a))) == Refused(NotAnAddress(PrintLine(a)))
  {
    hide EmailShape, Units, Named, Trim, Trimmed;
    TrimIsTrimmed(a.name);
    var line := NamedLine(a.name, a.email);
    assert a.name != "" && PrintLine(a) == line;
    NamedLineTrimmed(a.name, a.email);
    NamedLineMatches(a.name, a.email);
    assert line[|a.name|] == ' ';
    if EmailShape(line) {
      EmailChars(line);
    }
  }

  /** One such address. */
  lemma SeparatorExample()
    ensures var a := Address("a\U{2028}b", "x@y.z");
      GoodEmail(a.email) && GoodName(a.name) && Trimmed(a.name) && !AllDot(a.name)
  {
    hide EmailShape, Units;
    ExampleEmail();
    UnitsBound("x@y.z");
    UnitsBound("a\U{2028}b");
    assert Terminator("a\U{2028}b"[1]);
  }

  lemma ExampleEmail()
    ensures EmailShape("x@y.z")
  {
    hide Atom;
    var email := "x@y.z";
    assert email[..1] == "x" && email[2..3] == "y" && email[4..] == "z";
    ExampleAtom('x');
    ExampleAtom('y');
    ExampleAtom('z');
    assert email[1] == '@' && email[3] == '.' && Atom(email[..1]) && Atom(email[2..3]) && Atom(email[4..]);
  }

  lemma ExampleAtom(c: char)
    requires 'a' <= c <= 'z'
    ensures Atom([c])
  {
  }

  lemma {:induction false} UnitsBound(s: string)
    ensures Units(s) <= 2 * |s|
  {
    if s != "" {
      UnitsBound(s[1..]);
    }
  }

  lemma AllDotSubstring(s: string, i: nat, j: nat)
    requires AllDot(s) && i <= j <= |s|
    ensures AllDot(s[i..j])
  {
  }

  lemma TrimKeepsDots(s: string)
    requires AllDot(s)
    ensures AllDot(Trim(s))
  {
    var left := LeftTrim(s);
    var i := LeftTrimSplits(s);
    var j := RightTrimSplits(left);
    AllDotSubstring(s, i, |s|);
    AllDotSubstring(left, 0, j);
  }

  /** Whatever a line parses to is canonical. */
  lemma ParsedIsCanonical(line: string)
    ensures ParseLine(line).Ok? ==> Canonical(ParseLine(line).value)
  {
    hide EmailShape, Units, Trim, Trimmed, AllDot;
    if ParseLine(line).Ok? {
      var named := Named(line);
      NoName();
      if named.Some? {
        NamedIsDots(line);
        TrimKeepsDots(named.value.0);
        TrimIsTrimmed(named.value.0);
      }
    }
  }

  lemma NoName()
    ensures Trimmed("") && AllDot("")
  {
  }

  lemma NamedIsDots(line: string)
    requires Named(line).Some?
    ensures AllDot(Named(line).value.0)
  {
  }

  // ---- lists -----------------------------------------------------------------------------

  predicate OneLine(s: string) { '\n' !in s && '\r' !in s }

  lemma {:induction false} SplitOne(s: string)
    requires OneLine(s)
    ensures Split(s) == [s]
  {
    if s != "" {
      SplitOne(s[1..]);
      assert s == [s[0]] + s[1..];
    }
  }

  lemma {:induction false} SplitMore(s: string, rest: string)
    requires OneLine(s)
    ensures Split(s + "\n" + rest) == [s] + Split(rest)
  {
    var all := s + "\n" + rest;
    if s == "" {
      assert all[1..] == rest;
    } else {
      SplitMore(s[1..], rest);
      assert all[1..] == s[1..] + "\n" + rest;
      assert all[0] == s[0] && s == [s[0]] + s[1..];
    }
  }

  lemma {:induction false} SplitJoin(lines: seq<string>)
    requires lines != [] && forall i :: 0 <= i < |lines| ==> OneLine(lines[i])
    ensures Split(Join(lines)) == lines
  {
    if |lines| == 1 {
      SplitOne(lines[0]);
    } else {
      SplitJoin(lines[1..]);
      SplitMore(lines[0], Join(lines[1..]));
    }
  }

  lemma PrintedIsOneLine(a: Address)
    requires Canonical(a)
    ensures OneLine(PrintLine(a))
  {
    hide EmailShape, Units;
    EmailChars(a.email);
    assert '\n' !in a.name && '\r' !in a.name;
    assert '\n' !in a.email && '\r' !in a.email;
  }

  lemma {:induction false} PrintAllAt(l: seq<Address>)
    ensures |PrintAll(l)| == |l| && forall i :: 0 <= i < |l| ==> PrintAll(l)[i] == PrintLine(l[i])
  {
    if l != [] {
      PrintAllAt(l[1..]);
    }
  }

  lemma {:induction false} ParseAllPrinted(l: seq<Address>, lines: seq<string>)
    requires forall i :: 0 <= i < |l| ==> Canonical(l[i])
    requires |lines| == |l| && forall i :: 0 <= i < |l| ==> lines[i] == PrintLine(l[i])
    ensures ParseAll(lines) == Ok(l)
  {
    hide Canonical, PrintLine, ParseLine, Trim;
    if l != [] {
      var n := |l| - 1;
      ParseAllPrinted(l[..n], lines[..n]);
      LineRoundTrip(l[n]);
      assert l == l[..n] + [l[n]];
    }
  }

  lemma {:induction false} DistinctStay(fold: string -> string, l: seq<Address>)
    requires forall i, j :: 0 <= i < j < |l| ==> Key(fold, l[i]) != Key(fold, l[j])
    ensures FirstOfEach(fold, l) == l
  {
    if l != [] {
      DistinctStay(fold, l[..|l| - 1]);
      assert l == l[..|l| - 1] + [l[|l| - 1]];
    }
  }

  lemma CanonicalRoundTrip(fold: string -> string, l: seq<Address>)
    requires CanonicalList(fold, l)
    ensures Parse(fold, PrintLines(l)) == Ok(l)
  {
    hide Canonical, PrintLine, ParseLine, ParseAll, FirstOfEach;
    DistinctStay(fold, l);
    if l == [] {
      EmptyBox();
    } else {
      var lines := PrintAll(l);
      PrintAllAt(l);
      forall i | 0 <= i < |lines| ensures OneLine(lines[i]) {
        PrintedIsOneLine(l[i]);
      }
      SplitJoin(lines);
      ParseAllPrinted(l, lines);
    }
  }

  lemma EmptyBox()
    ensures ParseAll(Split(PrintLines([]))) == Ok([])
  {
    assert [""][..0] == [] && Trim("") == "";
  }

  lemma {:induction false} AllParsedAreCanonical(lines: seq<string>)
    ensures ParseAll(lines).Ok? ==> forall a :: a in ParseAll(lines).value ==> Canonical(a)
  {
    hide Canonical, ParseLine, Trim;
    if lines != [] {
      AllParsedAreCanonical(lines[..|lines| - 1]);
      ParsedIsCanonical(Trim(lines[|lines| - 1]));
    }
  }

  /** No earlier address has the key of the one at this place. */
  predicate IsFirst(fold: string -> string, l: seq<Address>, k: nat) {
    k < |l| && !Listed(fold, l[..k], Key(fold, l[k]))
  }

  /** The places in a list the kept addresses come from. */
  ghost predicate Firsts(fold: string -> string, l: seq<Address>, kept: seq<Address>, places: seq<nat>) {
    && |places| == |kept|
    && (forall i :: 0 <= i < |places| ==> IsFirst(fold, l, places[i]) && l[places[i]] == kept[i])
    && (forall i, j :: 0 <= i < j < |places| ==> places[i] < places[j])
    && (forall k :: 0 <= k < |l| && IsFirst(fold, l, k) ==> k in places)
  }

  lemma FirstsSnoc(fold: string -> string, l: seq<Address>, a: Address, kept: seq<Address>, places: seq<nat>)
    requires Firsts(fold, l, kept, places)
    ensures if IsFirst(fold, l + [a], |l|) then Firsts(fold, l + [a], kept + [a], places + [|l|])
            else Firsts(fold, l + [a], kept, places)
  {
    hide IsFirst;
    forall k | 0 <= k < |l| ensures IsFirst(fold, l + [a], k) == IsFirst(fold, l, k) {
      FirstStays(fold, l, a, k);
    }
    forall i | 0 <= i < |places| ensures 0 <= places[i] < |l| {
      FirstIsInside(fold, l, places[i]);
    }
    assert (places + [|l|])[|places|] == |l|;
    forall k | k in places ensures k in places + [|l|] {
    }
  }

  lemma FirstIsInside(fold: string -> string, l: seq<Address>, k: nat)
    ensures IsFirst(fold, l, k) ==> k < |l|
  {
  }

  lemma FirstStays(fold: string -> string, l: seq<Address>, a: Address, k: nat)
    requires k < |l|
    ensures IsFirst(fold, l + [a], k) == IsFirst(fold, l, k)
  {
    assert (l + [a])[..k] == l[..k];
  }

  /** The kept addresses are, in order, exactly the first of each email. */
  lemma {:induction false} KeepsTheFirsts(fold: string -> string, l: seq<Address>) returns (places: seq<nat>)
    ensures Firsts(fold, l, FirstOfEach(fold, l), places)
  {
    hide Listed, Firsts;
    if l == [] {
      places := [];
      NoFirsts(fold);
    } else {
      var n := |l| - 1;
      var before := KeepsTheFirsts(fold, l[..n]);
      assert l[..n] + [l[n]] == l;
      FirstsSnoc(fold, l[..n], l[n], FirstOfEach(fold, l[..n]), before);
      var kept := FirstOfEach(fold, l[..n]);
      assert FirstOfEach(fold, l) == if IsFirst(fold, l, n) then kept + [l[n]] else kept;
      places := if IsFirst(fold, l, n) then before + [n] else before;
    }
  }

  lemma NoFirsts(fold: string -> string)
    ensures Firsts(fold, [], [], [])
  {
  }

  lemma FirstsAreDistinct(fold: string -> string, l: seq<Address>)
    ensures var kept := FirstOfEach(fold, l);
      && (forall i, j :: 0 <= i < j < |kept| ==> Key(fold, kept[i]) != Key(fold, kept[j]))
      && (forall a :: a in kept ==> a in l)
  {
    var kept := FirstOfEach(fold, l);
    var places := KeepsTheFirsts(fold, l);
    forall i, j | 0 <= i < j < |kept| ensures Key(fold, kept[i]) != Key(fold, kept[j]) {
      assert l[..places[j]][places[i]] == kept[i];
    }
  }

  /** What the box parses to is always a canonical list. */
  lemma ParsedListIsCanonical(fold: string -> string, raw: string)
    ensures Parse(fold, raw).Ok? ==> CanonicalList(fold, Parse(fold, raw).value)
  {
    hide Canonical, ParseAll, FirstOfEach;
    if Parse(fold, raw).Ok? {
      AllParsedAreCanonical(Split(raw));
      FirstsAreDistinct(fold, ParseAll(Split(raw)).value);
    }
  }

  /**
   * A list comes back from its printed form exactly when its addresses are
   * canonical and no two share an email, ignoring case.
   */
  lemma RoundTripExactlyForCanonical(fold: string -> string, l: seq<Address>)
    ensures Parse(fold, PrintLines(l)) == Ok(l) <==> CanonicalList(fold, l)
  {
    hide Parse, CanonicalList;
    ParsedListIsCanonical(fold, PrintLines(l));
    if CanonicalList(fold, l) {
      CanonicalRoundTrip(fold, l);
    }
  }

  /** For any text that parses, printing the answer and parsing again changes nothing. */
  lemma ReprintIsStable(fold: string -> string, raw: string)
    requires Parse(fold, raw).Ok?
    ensures Parse(fold, PrintLines(Parse(fold, raw).value)) == Parse(fold, raw)
  {
    hide Parse, CanonicalList;
    ParsedListIsCanonical(fold, raw);
    CanonicalRoundTrip(fold, Parse(fold, raw).value);
  }
}
