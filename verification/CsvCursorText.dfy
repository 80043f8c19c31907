/**
 * The text of a cursor's position: JSON, in base64url without padding. The
 * reader undoes exactly what the writer makes, whose length is bounded.
 */
module CsvCursorText {
  import opened Wrappers

  /** What a cursor says: which preview, list and page size it continues, and where. */
  datatype Position = Position(preview: string, scope: string, limit: nat, offset: nat)

  // ---- numbers ---------------------------------------------------------------------------

  function Decimal(n: nat): string {
    var digit := [('0' as int + n % 10) as char];
    if n < 10 then digit else Decimal(n / 10) + digit
  }

  predicate IsDigit(c: char) { '0' <= c <= '9' }

  function Leading(t: string): string {
    if t == "" || !IsDigit(t[0]) then "" else [t[0]] + Leading(t[1..])
  }

  function Number(digits: string): nat
    requires forall i :: 0 <= i < |digits| ==> IsDigit(digits[i])
  {
    if digits == "" then 0
    else
      assert IsDigit(digits[|digits| - 1]);
      Number(digits[..|digits| - 1]) * 10 + (digits[|digits| - 1] as int - '0' as int)
  }

  lemma {:induction false} NumberRoundTrip(n: nat)
    ensures Decimal(n) != "" && (forall i :: 0 <= i < |Decimal(n)| ==> IsDigit(Decimal(n)[i]))
    ensures Number(Decimal(n)) == n
  {
    if n >= 10 {
      NumberRoundTrip(n / 10);
      var s := Decimal(n);
      assert s[..|s| - 1] == Decimal(n / 10);
    }
  }

  lemma {:induction false} LeadingIs(digits: string, rest: string)
    requires forall i :: 0 <= i < |digits| ==> IsDigit(digits[i])
    requires rest == "" || !IsDigit(rest[0])
    ensures Leading(digits + rest) == digits
  {
    if digits == "" {
      assert digits + rest == rest;
    } else {
      assert (digits + rest)[1..] == digits[1..] + rest;
      LeadingIs(digits[1..], rest);
    }
  }

  lemma {:induction false} LeadingDigits(t: string)
    ensures Leading(t) <= t && (forall i :: 0 <= i < |Leading(t)| ==> IsDigit(Leading(t)[i]))
  {
    if t != "" && IsDigit(t[0]) {
      LeadingDigits(t[1..]);
    }
  }

  function Power(k: nat): nat { if k == 0 then 1 else 10 * Power(k - 1) }

  lemma {:induction false} DecimalLength(n: nat, k: nat)
    requires k > 0 && n < Power(k)
    ensures |Decimal(n)| <= k
  {
    if n >= 10 {
      DecimalLength(n / 10, k - 1);
    }
  }

  // ---- base64url -------------------------------------------------------------------------

  /** Text of one byte a character. */
  predicate Bytes(s: string) { forall i :: 0 <= i < |s| ==> s[i] as int < 256 }

  function Sign64(n: nat): char
    requires n < 64
  {
    if n < 26 then ('A' as int + n) as char
    else if n < 52 then ('a' as int + (n - 26)) as char
    else if n < 62 then ('0' as int + (n - 52)) as char
    else if n == 62 then '-' else '_'
  }

  function Value64(c: char): Option<nat> {
    if 'A' <= c <= 'Z' then Some(c as int - 'A' as int)
    else if 'a' <= c <= 'z' then Some(26 + c as int - 'a' as int)
    else if '0' <= c <= '9' then Some(52 + c as int - '0' as int)
    else if c == '-' then Some(62) else if c == '_' then Some(63) else None
  }

  lemma SignRoundTrip(n: nat)
    requires n < 64
    ensures Value64(Sign64(n)) == Some(n) && Sign64(n) != '.'
  {
  }

  /** Up to three bytes as two to four signs. */
  function Signs(s: string): (t: string)
    requires 1 <= |s| <= 3 && Bytes(s)
  {
    var a := s[0] as int;
    if |s| == 1 then [Sign64(a / 4), Sign64(a % 4 * 16)]
    else
      var b := s[1] as int;
      if |s| == 2 then [Sign64(a / 4), Sign64(a % 4 * 16 + b / 16), Sign64(b % 16 * 4)]
      else
        var c := s[2] as int;
        [Sign64(a / 4), Sign64(a % 4 * 16 + b / 16), Sign64(b % 16 * 4 + c / 64), Sign64(c % 64)]
  }

  function Encode64(s: string): string
    requires Bytes(s)
  {
    if s == "" then "" else if |s| <= 3 then Signs(s) else Signs(s[..3]) + Encode64(s[3..])
  }

  function Byte(n: nat): char { (n % 256) as char }

  function Values(t: string): Option<seq<nat>> {
    if t == "" then Some([])
    else
      match Value64(t[0])
      case None => None
      case Some(v) =>
        match Values(t[1..])
        case None => None
        case Some(rest) => Some([v] + rest)
  }

  /** Whole bytes of a run of signs; bits that fill no byte are dropped. */
  function Packed(v: seq<nat>): string {
    if |v| < 2 then ""
    else if |v| == 2 then [Byte(v[0] * 4 + v[1] / 16)]
    else if |v| == 3 then [Byte(v[0] * 4 + v[1] / 16), Byte(v[1] % 16 * 16 + v[2] / 4)]
    else [Byte(v[0] * 4 + v[1] / 16), Byte(v[1] % 16 * 16 + v[2] / 4), Byte(v[2] % 4 * 64 + v[3])] + Packed(v[4..])
  }

  function Decode64(t: string): Option<string> {
    match Values(t)
    case None => None
    case Some(v) => Some(Packed(v))
  }

  lemma {:induction false} ValuesJoin(s: string, t: string)
    requires Values(s).Some? && Values(t).Some?
    ensures Values(s + t) == Some(Values(s).value + Values(t).value)
  {
    if s == "" {
      assert s + t == t && Values(s).value + Values(t).value == Values(t).value;
    } else {
      assert (s + t)[0] == s[0] && (s + t)[1..] == s[1..] + t;
      ValuesJoin(s[1..], t);
      var v := Value64(s[0]).value;
      assert [v] + (Values(s[1..]).value + Values(t).value) == ([v] + Values(s[1..]).value) + Values(t).value;
    }
  }

  lemma ValuesOfOne(n: nat)
    requires n < 64
    ensures Values([Sign64(n)]) == Some([n])
  {
    SignRoundTrip(n);
    assert [Sign64(n)][1..] == "" && Values("") == Some([]);
    assert [n] + [] == [n];
  }

  lemma ValuesOfTwo(m: nat, n: nat)
    requires m < 64 && n < 64
    ensures Values([Sign64(m), Sign64(n)]) == Some([m, n])
  {
    ValuesOfOne(m);
    ValuesOfOne(n);
    ValuesJoin([Sign64(m)], [Sign64(n)]);
    assert [Sign64(m)] + [Sign64(n)] == [Sign64(m), Sign64(n)];
    assert [m] + [n] == [m, n];
  }

  lemma OneByte(a: nat)
    requires a < 256
    ensures var v := [a / 4, a % 4 * 16];
      Values([Sign64(v[0]), Sign64(v[1])]) == Some(v) && Packed(v) == [a as char]
  {
    ValuesOfTwo(a / 4, a % 4 * 16);
  }

  lemma FirstByte(a: nat, x: nat)
    requires a < 256 && x < 16
    ensures Byte(a / 4 * 4 + (a % 4 * 16 + x) / 16) == a as char
  {
    assert (a % 4 * 16 + x) / 16 == a % 4;
  }

  lemma SecondByte(b: nat, x: nat, y: nat)
    requires b < 256 && x < 4 && y < 4
    ensures Byte((x * 16 + b / 16) % 16 * 16 + (b % 16 * 4 + y) / 4) == b as char
  {
    assert (x * 16 + b / 16) % 16 == b / 16;
    assert (b % 16 * 4 + y) / 4 == b % 16;
  }

  lemma ThirdByte(c: nat, y: nat)
    requires c < 256 && y < 16
    ensures Byte((y * 4 + c / 64) % 4 * 64 + c % 64) == c as char
  {
    assert (y * 4 + c / 64) % 4 == c / 64;
  }

  lemma TwoBytes(a: nat, b: nat)
    requires a < 256 && b < 256
    ensures var v := [a / 4, a % 4 * 16 + b / 16, b % 16 * 4];
      Values([Sign64(v[0]), Sign64(v[1]), Sign64(v[2])]) == Some(v) && Packed(v) == [a as char, b as char]
  {
    var m, n, o := a / 4, a % 4 * 16 + b / 16, b % 16 * 4;
    ValuesOfTwo(m, n);
    ValuesOfOne(o);
    ValuesJoin([Sign64(m), Sign64(n)], [Sign64(o)]);
    assert [Sign64(m), Sign64(n)] + [Sign64(o)] == [Sign64(m), Sign64(n), Sign64(o)];
    assert [m, n] + [o] == [m, n, o];
    FirstByte(a, b / 16);
    SecondByte(b, a % 4, 0);
  }

  lemma ThreeBytes(a: nat, b: nat, c: nat)
    requires a < 256 && b < 256 && c < 256
    ensures var v := [a / 4, a % 4 * 16 + b / 16, b % 16 * 4 + c / 64, c % 64];
      Values([Sign64(v[0]), Sign64(v[1]), Sign64(v[2]), Sign64(v[3])]) == Some(v)
      && Packed(v) == [a as char, b as char, c as char]
  {
    hide Byte, Values, Packed;
    var m, n, o, p := a / 4, a % 4 * 16 + b / 16, b % 16 * 4 + c / 64, c % 64;
    FourSigns(m, n, o, p);
    FirstByte(a, b / 16);
    SecondByte(b, a % 4, c / 64);
    ThirdByte(c, b % 16);
    PackedFour(m, n, o, p);
  }

  lemma FourSigns(m: nat, n: nat, o: nat, p: nat)
    requires m < 64 && n < 64 && o < 64 && p < 64
    ensures Values([Sign64(m), Sign64(n), Sign64(o), Sign64(p)]) == Some([m, n, o, p])
  {
    ValuesOfTwo(m, n);
    ValuesOfTwo(o, p);
    ValuesJoin([Sign64(m), Sign64(n)], [Sign64(o), Sign64(p)]);
    assert [Sign64(m), Sign64(n)] + [Sign64(o), Sign64(p)] == [Sign64(m), Sign64(n), Sign64(o), Sign64(p)];
    assert [m, n] + [o, p] == [m, n, o, p];
  }

  lemma PackedFour(m: nat, n: nat, o: nat, p: nat)
    ensures Packed([m, n, o, p]) == [Byte(m * 4 + n / 16), Byte(n % 16 * 16 + o / 4), Byte(o % 4 * 64 + p)]
  {
    assert [m, n, o, p][4..] == [] && Packed([]) == "";
  }

  lemma SignsHaveNoDot(s: string)
    requires 1 <= |s| <= 3 && Bytes(s)
    ensures '.' !in Signs(s) && |Signs(s)| == |s| + 1
  {
  }

  lemma SignsRoundTrip(s: string)
    requires 1 <= |s| <= 3 && Bytes(s)
    ensures Values(Signs(s)).Some? && Packed(Values(Signs(s)).value) == s
    ensures |Values(Signs(s)).value| == |s| + 1 == |Signs(s)| && '.' !in Signs(s)
  {
    hide Values, Packed;
    SignsHaveNoDot(s);
    if |s| == 1 {
      OneByte(s[0] as int);
      assert s == [s[0]];
    } else if |s| == 2 {
      TwoBytes(s[0] as int, s[1] as int);
      assert s == [s[0], s[1]];
    } else {
      ThreeBytes(s[0] as int, s[1] as int, s[2] as int);
      assert s == [s[0], s[1], s[2]];
    }
  }

  lemma EmptyDecodes()
    ensures Decode64("") == Some("")
  {
  }

  lemma PackedJoin(v: seq<nat>, rest: seq<nat>)
    requires |v| == 4
    ensures Packed(v + rest) == Packed(v) + Packed(rest)
  {
    assert (v + rest)[4..] == rest;
    assert v[4..] == [];
  }

  /** Decoding undoes encoding; the code has no dot and four signs for three bytes. */
  lemma {:induction false} Base64RoundTrip(s: string)
    requires Bytes(s)
    ensures Decode64(Encode64(s)) == Some(s)
    ensures '.' !in Encode64(s) && |Encode64(s)| == (4 * |s| + 2) / 3
  {
    hide Signs, Values, Packed;
    if s == "" {
      EmptyDecodes();
    } else if |s| <= 3 {
      SignsRoundTrip(s);
    } else {
      SignsRoundTrip(s[..3]);
      Base64RoundTrip(s[3..]);
      ValuesJoin(Signs(s[..3]), Encode64(s[3..]));
      PackedJoin(Values(Signs(s[..3])).value, Values(Encode64(s[3..])).value);
      assert s == s[..3] + s[3..];
    }
  }

  // ---- the JSON of a position ------------------------------------------------------------

  const PREVIEW := "{\"preview\":\""
  const SCOPE := "\",\"scope\":\""
  const LIMIT := "\",\"limit\":"
  const OFFSET := ",\"offset\":"

  /** Text that JSON writes as it is: no quote, backslash, control or wide character. */
  predicate Verbatim(s: string) {
    forall i :: 0 <= i < |s| ==> 32 <= s[i] as int < 127 && s[i] != '"' && s[i] != '\\'
  }

  predicate Writable(p: Position) { Verbatim(p.preview) && Verbatim(p.scope) }

  function Json(p: Position): string {
    PREVIEW + (p.preview + (SCOPE + (p.scope + (LIMIT + (Decimal(p.limit) + (OFFSET + (Decimal(p.offset) + "}")))))))
  }

  function After(t: string, word: string): Option<string> {
    if word <= t then Some(t[|word|..]) else None
  }

  function UntilQuote(t: string): string {
    if t == "" || t[0] == '"' then "" else [t[0]] + UntilQuote(t[1..])
  }

  lemma {:induction false} UntilQuoteIs(s: string, rest: string)
    requires Verbatim(s) && rest != "" && rest[0] == '"'
    ensures UntilQuote(s + rest) == s
  {
    if s == "" {
      assert s + rest == rest;
    } else {
      assert (s + rest)[1..] == s[1..] + rest;
      UntilQuoteIs(s[1..], rest);
    }
  }

  function ReadWord(t: string, word: string): Option<(string, string)> {
    match After(t, word)
    case None => None
    case Some(rest) =>
      var s := UntilQuote(rest);
      if s <= rest then Some((s, rest[|s|..])) else None
  }

  function ReadNumber(t: string, word: string): Option<(nat, string)> {
    match After(t, word)
    case None => None
    case Some(rest) =>
      LeadingDigits(rest);
      var s := Leading(rest);
      if s == "" then None else Some((Number(s), rest[|s|..]))
  }

  /** The four fields of a text, wherever they end: a text that `Json` writes is cut at its marks. */
  function Fields(t: string): Option<Position> {
    match ReadWord(t, PREVIEW)
    case None => None
    case Some((preview, t1)) =>
      match ReadWord(t1, SCOPE)
      case None => None
      case Some((scope, t2)) =>
        match ReadNumber(t2, LIMIT)
        case None => None
        case Some((limit, t3)) =>
          match ReadNumber(t3, OFFSET)
          case None => None
          case Some((offset, t4)) =>
            if t4 == "}" then Some(Position(preview, scope, limit, offset)) else None
  }

  /** Reads what `Json` writes, and nothing else. */
  function ReadJson(t: string): Option<Position> {
    match Fields(t)
    case None => None
    case Some(p) => if Writable(p) && Json(p) == t then Some(p) else None
  }

  lemma AfterIs(word: string, rest: string)
    ensures After(word + rest, word) == Some(rest)
  {
    assert (word + rest)[|word|..] == rest;
  }

  lemma ReadWordIs(word: string, s: string, rest: string)
    requires Verbatim(s) && rest != "" && rest[0] == '"'
    ensures ReadWord(word + (s + rest), word) == Some((s, rest))
  {
    AfterIs(word, s + rest);
    UntilQuoteIs(s, rest);
    assert (s + rest)[|s|..] == rest;
  }

  lemma ReadNumberIs(word: string, n: nat, rest: string)
    requires rest == "" || !IsDigit(rest[0])
    ensures ReadNumber(word + (Decimal(n) + rest), word) == Some((n, rest))
  {
    AfterIs(word, Decimal(n) + rest);
    NumberRoundTrip(n);
    LeadingIs(Decimal(n), rest);
    assert (Decimal(n) + rest)[|Decimal(n)|..] == rest;
  }

  lemma FieldsOfJson(p: Position)
    requires Writable(p)
    ensures Fields(Json(p)) == Some(p)
  {
    hide ReadWord, ReadNumber;
    var t4 := "}";
    var t3 := OFFSET + (Decimal(p.offset) + t4);
    var t2 := LIMIT + (Decimal(p.limit) + t3);
    var t1 := SCOPE + (p.scope + t2);
    ReadWordIs(PREVIEW, p.preview, t1);
    ReadWordIs(SCOPE, p.scope, t2);
    ReadNumberIs(LIMIT, p.limit, t3);
    ReadNumberIs(OFFSET, p.offset, t4);
  }

  /** A text is read as a position exactly when it is what is written for that position. */
  lemma JsonRoundTrip(t: string, p: Position)
    ensures ReadJson(t) == Some(p) <==> Writable(p) && t == Json(p)
  {
    hide Fields, Json;
    if Writable(p) {
      FieldsOfJson(p);
    }
  }

  lemma {:induction false} JsonIsBytes(p: Position)
    requires Writable(p)
    ensures Bytes(Json(p))
    ensures |Json(p)| == 44 + |p.preview| + |p.scope| + |Decimal(p.limit)| + |Decimal(p.offset)|
  {
    NumberRoundTrip(p.limit);
    NumberRoundTrip(p.offset);
    assert Bytes(PREVIEW) && Bytes(SCOPE) && Bytes(LIMIT) && Bytes(OFFSET) && Bytes("}");
    var t3 := OFFSET + (Decimal(p.offset) + "}");
    assert Bytes(t3);
    var t2 := LIMIT + (Decimal(p.limit) + t3);
    assert Bytes(t2);
    assert Bytes(SCOPE + (p.scope + t2));
  }

  /** The text of a position in a cursor. */
  function Text(p: Position): string
    requires Writable(p)
  {
    JsonIsBytes(p);
    Encode64(Json(p))
  }

  function ReadText(t: string): Option<Position> {
    match Decode64(t)
    case None => None
    case Some(json) => ReadJson(json)
  }

  /** A written position is read back; its text is not empty and has no dot. */
  lemma TextRoundTrip(p: Position)
    requires Writable(p)
    ensures ReadText(Text(p)) == Some(p) && Text(p) != "" && '.' !in Text(p)
  {
    JsonIsBytes(p);
    Base64RoundTrip(Json(p));
    JsonRoundTrip(Json(p), p);
  }

  /** Four signs for three bytes of JSON, whose numbers have at most 3 and 16 digits. */
  lemma TextLength(p: Position)
    requires Writable(p) && p.limit <= 100 && p.offset <= 9007199254740991
    ensures |Text(p)| <= (4 * (63 + |p.preview| + |p.scope|) + 2) / 3
  {
    JsonIsBytes(p);
    Base64RoundTrip(Json(p));
    DecimalLength(p.limit, 3);
    assert Power(4) == 10000 && Power(8) == 10000 * Power(4) && Power(12) == 10000 * Power(8);
    assert Power(16) == 10000 * Power(12);
    DecimalLength(p.offset, 16);
  }
}
