/**
 * Pages of a saved preview, and the signed cursor between them. The HMAC is a
 * function nobody else can evaluate.
 */
module CsvPaging {
  import opened Wrappers
  import opened HexText
  import opened CsvSidecar
  import opened CsvCursorText
  import opened CsvCatalog

  const CURSOR_LIMIT := 2048

  // ---- what is listed --------------------------------------------------------------------

  datatype Issue = Invalid | Unsupported | Warning

  datatype Item =
    | Diagnostic(issue: Issue, line: int)
    | Source(kind: Kind, key: string, parent: Option<string>, selected: Option<int>)
    | Candidate(id: int, parentId: Option<int>)

  /** The lists stored with one preview. */
  datatype Saved = Saved(id: string, diagnostics: seq<Item>, sources: seq<Item>, candidates: Kind -> seq<Item>)

  /** Preview ids and source keys are digests; every key of the catalogue is one. */
  predicate Digested(saved: Saved) {
    && PreviewId(saved.id)
    && (forall i :: 0 <= i < |saved.sources| && saved.sources[i].Source? ==>
          |saved.sources[i].key| == 64 && LowerHex(saved.sources[i].key))
  }

  datatype Question = Errors(issue: Option<Issue>) | Sources(kind: Kind) | Candidates(kind: Kind, key: string)

  /** A catalogue request without a source key asks for the sources themselves. */
  function Asked(kind: Kind, sourceKey: string): Question {
    if sourceKey == "" then Sources(kind) else Candidates(kind, sourceKey)
  }

  function Select(items: seq<Item>, keep: Item -> bool): seq<Item> {
    if items == [] then []
    else (if keep(items[0]) then [items[0]] else []) + Select(items[1..], keep)
  }

  function FindFirst(items: seq<Item>, wanted: Item -> bool): Option<Item> {
    if items == [] then None
    else if wanted(items[0]) then Some(items[0]) else FindFirst(items[1..], wanted)
  }

  predicate IsSource(x: Item, key: string) { x.Source? && x.key == key }

  /** The whole list a question is about; candidates of a project are those of its chosen client. */
  function ListOf(saved: Saved, q: Question): Result<seq<Item>, Refusal> {
    match q
    case Errors(issue) =>
      Ok(Select(saved.diagnostics, (x: Item) => issue.None? || (x.Diagnostic? && x.issue == issue.value)))
    case Sources(kind) => Ok(Select(saved.sources, (x: Item) => x.Source? && x.kind == kind))
    case Candidates(kind, key) =>
      match FindFirst(saved.sources, (x: Item) => IsSource(x, key) && x.kind == kind)
      case None => Refused(MappingInvalid)
      case Some(source) =>
        var all := saved.candidates(kind);
        if kind != Projects || !source.Source? || source.parent.None? || source.parent.value == "" then Ok(all)
        else
          match FindFirst(saved.sources, (x: Item) => IsSource(x, source.parent.value))
          case None => Ok([])
          case Some(parent) =>
            if !parent.Source? || parent.selected.None? || parent.selected.value == 0 then Ok([])
            else Ok(Select(all, (x: Item) => x.Candidate? && x.parentId == parent.selected))
  }

  function KindName(kind: Kind): string {
    match kind
    case People => "people"
    case Clients => "clients"
    case Projects => "projects"
    case Tasks => "tasks"
  }

  function IssueName(issue: Issue): string {
    match issue
    case Invalid => "invalid"
    case Unsupported => "unsupported"
    case Warning => "warning"
  }

  function Scope(q: Question): string {
    match q
    case Errors(issue) => "errors:" + (if issue.None? then "" else IssueName(issue.value))
    case Sources(kind) => "sources:" + KindName(kind)
    case Candidates(kind, key) => "candidates:" + KindName(kind) + ":" + key
  }

  // ---- cursors ---------------------------------------------------------------------------

  /** The keyed signature, and what the platform's base64url and JSON readers make of any text at all. */
  datatype Codec = Codec(sign: string -> string, read: string -> Option<Position>)

  /** The readers give back what was written, as long as its numbers are exact; of other texts nothing is assumed. */
  ghost predicate Sound(c: Codec) {
    && (forall p {:trigger Writable(p)} ::
          Writable(p) && SafeCount(p.limit) && SafeCount(p.offset) ==> c.read(Text(p)) == Some(p))
    && (forall t {:trigger c.sign(t)} :: |c.sign(t)| == 64 && LowerHex(c.sign(t)))
  }

  datatype Page = Page(items: seq<Item>, total: nat, next: Option<string>)

  function Issued(c: Codec, p: Position): string
    requires Writable(p)
  {
    Text(p) + "." + c.sign(Text(p))
  }

  /** The text before the first dot, and the text after it up to the next one. */
  function BeforeDot(s: string): string {
    if s == "" || s[0] == '.' then "" else [s[0]] + BeforeDot(s[1..])
  }

  function AfterDot(s: string): Option<string> {
    if s == "" then None else if s[0] == '.' then Some(s[1..]) else AfterDot(s[1..])
  }

  lemma {:induction false} DotSplits(raw: string, rest: string)
    requires '.' !in raw
    ensures BeforeDot(raw + "." + rest) == raw && AfterDot(raw + "." + rest) == Some(rest)
  {
    var s := raw + "." + rest;
    if raw != "" {
      assert s[1..] == raw[1..] + "." + rest;
      DotSplits(raw[1..], rest);
    } else {
      assert s == "." + rest;
    }
  }

  lemma {:induction false} NoDotIsWhole(s: string)
    requires '.' !in s
    ensures BeforeDot(s) == s
  {
    if s != "" {
      NoDotIsWhole(s[1..]);
    }
  }

  /** The offset a cursor stands for, refused unless it was signed here for this very list. */
  function Offset(c: Codec, preview: string, scope: string, limit: int, cursor: string): Result<nat, Refusal> {
    if |cursor| > CURSOR_LIMIT then Refused(PreviewStale)
    else
      var raw := BeforeDot(cursor);
      var tail := AfterDot(cursor);
      if raw == "" || tail.None? then Refused(PreviewStale)
      else
        var mac := BeforeDot(tail.value);
        if |mac| != 64 || !LowerHex(mac) || c.sign(raw) != mac then Refused(PreviewStale)
        else
          match c.read(raw)
          case None => Refused(PreviewStale)
          case Some(p) =>
            if p.preview != preview || p.scope != scope || p.limit != limit || !SafeCount(p.offset)
            then Refused(PreviewStale)
            else Ok(p.offset)
  }

  function Smaller(a: int, b: int): int { if a < b then a else b }

  /** Slice bounds past the end are clipped to the end. */
  function Slice(items: seq<Item>, from: nat, to: nat): seq<Item>
    requires from <= to
  {
    items[Smaller(from, |items|)..Smaller(to, |items|)]
  }

  /** An absent and an empty cursor both start at the first item. */
  function PageOf(c: Codec, items: seq<Item>, preview: string, scope: string, limit: int,
                  cursor: string): Result<Page, Refusal>
    requires Verbatim(preview) && Verbatim(scope)
  {
    if !(1 <= limit <= 100) then Refused(MappingInvalid)
    else
      match if cursor == "" then Ok(0) else Offset(c, preview, scope, limit, cursor)
      case Refused(e) => Refused(e)
      case Ok(offset) =>
        var next := if offset + limit < |items|
                    then Some(Issued(c, Position(preview, scope, limit, offset + limit))) else None;
        Ok(Page(Slice(items, offset, offset + limit), |items|, next))
  }

  /** One request for a page of one of a preview's lists. */
  function Read(c: Codec, saved: Saved, q: Question, limit: int, cursor: string): Result<Page, Refusal>
    requires Digested(saved)
  {
    match ListOf(saved, q)
    case Refused(e) => Refused(e)
    case Ok(items) =>
      ListedIsVerbatim(saved, q);
      PageOf(c, items, saved.id, Scope(q), limit, cursor)
  }

  lemma HexIsVerbatim(s: string)
    requires LowerHex(s)
    ensures Verbatim(s)
  {
  }

  lemma PreviewIdIsVerbatim(s: string)
    requires PreviewId(s)
    ensures Verbatim(s)
  {
    HexIsVerbatim(s[8..]);
    assert s == "preview_" + s[8..];
  }

  lemma {:induction false} FoundIsWanted(items: seq<Item>, wanted: Item -> bool)
    requires FindFirst(items, wanted).Some?
    ensures wanted(FindFirst(items, wanted).value) && FindFirst(items, wanted).value in items
  {
    if !wanted(items[0]) {
      FoundIsWanted(items[1..], wanted);
    }
  }

  /** Whatever is listed has one of a few short scopes: an unknown source key lists nothing. */
  lemma ListedIsVerbatim(saved: Saved, q: Question)
    requires Digested(saved) && ListOf(saved, q).Ok?
    ensures Verbatim(saved.id) && Verbatim(Scope(q)) && |Scope(q)| <= 84
  {
    PreviewIdIsVerbatim(saved.id);
    hide PreviewId;
    match q
    case Errors(issue) =>
      ErrorScope(issue);
    case Sources(kind) =>
      SourceScope(kind);
    case Candidates(kind, key) =>
      FoundIsWanted(saved.sources, (x: Item) => IsSource(x, key) && x.kind == kind);
      HexIsVerbatim(key);
      CandidateScope(kind, key);
  }

  lemma VerbatimJoin(a: string, b: string)
    requires Verbatim(a) && Verbatim(b)
    ensures Verbatim(a + b)
  {
  }

  lemma NamesAreVerbatim(issue: Issue, kind: Kind)
    ensures Verbatim(IssueName(issue)) && |IssueName(issue)| <= 11
    ensures Verbatim(KindName(kind)) && |KindName(kind)| <= 8
  {
  }

  lemma ErrorScope(issue: Option<Issue>)
    ensures Verbatim(Scope(Errors(issue))) && |Scope(Errors(issue))| <= 84
  {
    assert Verbatim("errors:") && Verbatim("");
    if issue.Some? {
      NamesAreVerbatim(issue.value, People);
    }
    hide IssueName, Verbatim;
    VerbatimJoin("errors:", if issue.None? then "" else IssueName(issue.value));
  }

  lemma SourceScope(kind: Kind)
    ensures Verbatim(Scope(Sources(kind))) && |Scope(Sources(kind))| <= 84
  {
    assert Verbatim("sources:");
    NamesAreVerbatim(Invalid, kind);
    hide KindName, Verbatim;
    VerbatimJoin("sources:", KindName(kind));
  }

  lemma CandidateScope(kind: Kind, key: string)
    requires Verbatim(key) && |key| == 64
    ensures Verbatim(Scope(Candidates(kind, key))) && |Scope(Candidates(kind, key))| <= 84
  {
    assert Verbatim("candidates:") && Verbatim(":");
    NamesAreVerbatim(Invalid, kind);
    hide KindName, Verbatim;
    VerbatimJoin("candidates:", KindName(kind));
    VerbatimJoin("candidates:" + KindName(kind), ":");
    VerbatimJoin("candidates:" + KindName(kind) + ":", key);
  }

  /** Different questions have different scopes. */
  lemma ScopeNamesTheQuestion(q: Question, r: Question)
    ensures Scope(q) == Scope(r) <==> q == r
  {
    if Scope(q) == Scope(r) {
      assert Scope(q)[0] == Scope(r)[0];
      match q
      case Errors(issue) =>
        assert r.Errors?;
        assert Scope(q)[7..] == Scope(r)[7..];
        assert issue.Some? ==> IssueName(issue.value)[0] == Scope(q)[7];
        assert r.issue.Some? ==> IssueName(r.issue.value)[0] == Scope(r)[7];
      case Sources(kind) =>
        assert r.Sources?;
        assert Scope(q)[8..] == KindName(kind) && Scope(r)[8..] == KindName(r.kind);
      case Candidates(kind, key) =>
        assert r.Candidates?;
        SameCandidates(kind, key, r.kind, r.key);
    }
  }

  lemma SameCandidates(kind: Kind, key: string, kind': Kind, key': string)
    requires Scope(Candidates(kind, key)) == Scope(Candidates(kind', key'))
    ensures kind == kind' && key == key'
  {
    var s, t := Scope(Candidates(kind, key)), Scope(Candidates(kind', key'));
    assert s[11] == KindName(kind)[0] && t[11] == KindName(kind')[0];
    assert s[12] == KindName(kind)[1] && t[12] == KindName(kind')[1];
    assert kind == kind';
    assert s[12 + |KindName(kind)|..] == key && t[12 + |KindName(kind')|..] == key';
  }

  /** A reader of nothing but written texts is sound, so the assumption can be met. */
  lemma StrictReaderIsSound(sign: string -> string)
    requires forall t {:trigger sign(t)} :: |sign(t)| == 64 && LowerHex(sign(t))
    ensures Sound(Codec(sign, ReadText))
  {
    var c := Codec(sign, ReadText);
    forall p: Position | Writable(p) ensures c.read(Text(p)) == Some(p) {
      TextRoundTrip(p);
    }
  }

  lemma IssuedSplits(c: Codec, p: Position)
    requires Sound(c) && Writable(p) && SafeCount(p.limit) && SafeCount(p.offset)
    ensures var s := Issued(c, p);
      && BeforeDot(s) == Text(p) != "" && AfterDot(s) == Some(c.sign(Text(p)))
      && BeforeDot(c.sign(Text(p))) == c.sign(Text(p)) && c.read(Text(p)) == Some(p)
  {
    TextRoundTrip(p);
    DotSplits(Text(p), c.sign(Text(p)));
    NoDotIsWhole(c.sign(Text(p)));
  }

  /** No cursor the service issues comes near the limit it reads back. */
  lemma IssuedIsShort(c: Codec, saved: Saved, q: Question, limit: int, offset: nat)
    requires Sound(c) && Digested(saved) && ListOf(saved, q).Ok? && 1 <= limit <= 100 && SafeCount(offset)
    ensures Verbatim(saved.id) && Verbatim(Scope(q))
    ensures 65 < |Issued(c, Position(saved.id, Scope(q), limit, offset))| <= 357 < CURSOR_LIMIT
  {
    ListedIsVerbatim(saved, q);
    TextLength(Position(saved.id, Scope(q), limit, offset));
    TextRoundTrip(Position(saved.id, Scope(q), limit, offset));
  }

  /** Whatever is accepted carries a signature of its own text and names this list. */
  lemma AcceptedCursorIsSigned(c: Codec, preview: string, scope: string, limit: int, cursor: string)
    requires Offset(c, preview, scope, limit, cursor).Ok?
    ensures AfterDot(cursor).Some? && BeforeDot(AfterDot(cursor).value) == c.sign(BeforeDot(cursor))
    ensures limit >= 0 && c.read(BeforeDot(cursor)) ==
      Some(Position(preview, scope, limit, Offset(c, preview, scope, limit, cursor).value))
  {
  }

  lemma OffsetIs(c: Codec, p: Position, preview: string, scope: string, limit: int)
    requires Sound(c) && Writable(p) && SafeCount(p.limit) && SafeCount(p.offset) && |Issued(c, p)| <= CURSOR_LIMIT
    ensures Offset(c, preview, scope, limit, Issued(c, p)) ==
      if p.preview == preview && p.scope == scope && p.limit == limit then Ok(p.offset) else Refused(PreviewStale)
  {
    IssuedSplits(c, p);
    hide Issued, Text;
  }

  lemma NextPage(c: Codec, items: seq<Item>, preview: string, scope: string, limit: int, cursor: string)
    returns (offset: nat)
    requires Verbatim(preview) && Verbatim(scope) && PageOf(c, items, preview, scope, limit, cursor).Ok?
    requires PageOf(c, items, preview, scope, limit, cursor).value.next.Some?
    ensures 1 <= limit <= 100
    ensures var page := PageOf(c, items, preview, scope, limit, cursor).value;
      && offset + limit < |items| == page.total && page.items == items[offset..offset + limit]
      && page.next == Some(Issued(c, Position(preview, scope, limit, offset + limit)))
  {
    hide Offset, Issued, Verbatim;
    offset := if cursor == "" then 0 else Offset(c, preview, scope, limit, cursor).value;
  }

  /** Where a page that has a next one begins, and the cursor it carries. */
  lemma NextOf(c: Codec, saved: Saved, q: Question, limit: int, cursor: string) returns (offset: nat)
    requires Digested(saved) && Read(c, saved, q, limit, cursor).Ok?
    requires Read(c, saved, q, limit, cursor).value.next.Some?
    ensures Verbatim(saved.id) && Verbatim(Scope(q)) && ListOf(saved, q).Ok? && 1 <= limit <= 100
    ensures var page := Read(c, saved, q, limit, cursor).value;
      var items := ListOf(saved, q).value;
      && offset + limit < |items| == page.total && page.items == items[offset..offset + limit]
      && page.next == Some(Issued(c, Position(saved.id, Scope(q), limit, offset + limit)))
  {
    ListedIsVerbatim(saved, q);
    hide Digested, ListOf, PageOf, Issued, Scope, Verbatim;
    offset := NextPage(c, ListOf(saved, q).value, saved.id, Scope(q), limit, cursor);
  }

  /**
   * The cursor a page of one list carries is accepted for a question about a
   * preview exactly when it is the same preview, the same question and the same
   * page size; it then stands for the item behind that page.
   */
  lemma CursorIsForItsListOnly(c: Codec, saved: Saved, q: Question, limit: int, cursor: string,
                               other: Saved, r: Question, size: int)
    requires Sound(c) && Digested(saved) && Read(c, saved, q, limit, cursor).Ok?
    requires Read(c, saved, q, limit, cursor).value.next.Some? && |ListOf(saved, q).value| <= MAX_SAFE
    ensures var page := Read(c, saved, q, limit, cursor).value;
      var from := Offset(c, other.id, Scope(r), size, page.next.value);
      && (from.Ok? <==> saved.id == other.id && q == r && limit == size)
      && (from.Ok? ==> from.value >= limit && from.value < page.total
                       && page.items == ListOf(saved, q).value[from.value - limit..from.value])
  {
    hide Sound, Digested, ListOf, Read, Offset, Issued, Scope, Verbatim;
    var offset := NextOf(c, saved, q, limit, cursor);
    IssuedIsShort(c, saved, q, limit, offset + limit);
    OffsetIs(c, Position(saved.id, Scope(q), limit, offset + limit), other.id, Scope(r), size);
    ScopeNamesTheQuestion(q, r);
  }

  // ---- following the cursors -------------------------------------------------------------

  datatype Walk = Walk(items: seq<Item>, pages: nat, failed: bool)

  /** Reads the page at `cursor`, then the page its `next` names, until there is none. */
  function Follow(c: Codec, saved: Saved, q: Question, limit: int, cursor: string, steps: nat): Walk
    requires Digested(saved)
    decreases steps
  {
    if steps == 0 then Walk([], 0, true)
    else
      match Read(c, saved, q, limit, cursor)
      case Refused(_) => Walk([], 0, true)
      case Ok(page) =>
        if page.next.None? then Walk(page.items, 1, false)
        else
          var rest := Follow(c, saved, q, limit, page.next.value, steps - 1);
          Walk(page.items + rest.items, 1 + rest.pages, rest.failed)
  }

  /** `pages` pages of `limit` items are what `left` items need; an empty list still has one. */
  predicate Enough(left: nat, limit: int, pages: nat) {
    pages >= 1 && left <= pages * limit && (left > 0 ==> (pages - 1) * limit < left) && (left == 0 ==> pages == 1)
  }

  lemma OneMorePage(left: nat, limit: int, pages: nat)
    requires limit > 0 && left > 0 && Enough(left, limit, pages)
    ensures Enough(left + limit, limit, pages + 1)
  {
    assert (pages + 1) * limit == pages * limit + limit;
    assert pages * limit == (pages - 1) * limit + limit;
  }

  /** A cursor that leads to `offset`: none for the first page, else the one issued for it. */
  predicate LeadsTo(c: Codec, preview: string, scope: string, limit: nat, cursor: string, offset: nat)
    requires Verbatim(preview) && Verbatim(scope)
  {
    if offset == 0 then cursor == "" else cursor == Issued(c, Position(preview, scope, limit, offset))
  }

  lemma CursorAt(c: Codec, saved: Saved, q: Question, limit: int, cursor: string, offset: nat)
    requires Sound(c) && Digested(saved) && ListOf(saved, q).Ok? && 1 <= limit <= 100 && SafeCount(offset)
    requires Verbatim(saved.id) && Verbatim(Scope(q)) && LeadsTo(c, saved.id, Scope(q), limit, cursor, offset)
    ensures (if cursor == "" then Ok(0) else Offset(c, saved.id, Scope(q), limit, cursor)) == Ok(offset)
  {
    hide Offset, Issued, Scope, ListOf, Digested, Sound, Verbatim;
    if offset > 0 {
      IssuedIsShort(c, saved, q, limit, offset);
      OffsetIs(c, Position(saved.id, Scope(q), limit, offset), saved.id, Scope(q), limit);
    }
  }

  lemma PageAt(c: Codec, saved: Saved, q: Question, limit: int, cursor: string, offset: nat)
    requires Sound(c) && Digested(saved) && ListOf(saved, q).Ok? && 1 <= limit <= 100
    requires |ListOf(saved, q).value| <= MAX_SAFE && offset <= |ListOf(saved, q).value|
    requires Verbatim(saved.id) && Verbatim(Scope(q)) && LeadsTo(c, saved.id, Scope(q), limit, cursor, offset)
    ensures var items := ListOf(saved, q).value;
      Read(c, saved, q, limit, cursor) ==
      Ok(Page(items[offset..Smaller(offset + limit, |items|)], |items|,
              if offset + limit < |items|
              then Some(Issued(c, Position(saved.id, Scope(q), limit, offset + limit))) else None))
  {
    hide Offset, Issued, Scope, ListOf, Digested, Sound, LeadsTo, Verbatim;
    CursorAt(c, saved, q, limit, cursor, offset);
  }

  lemma OnePageIsEnough(left: nat, limit: int)
    requires left <= limit
    ensures Enough(left, limit, 1)
  {
  }

  lemma {:induction false} FollowFrom(c: Codec, saved: Saved, q: Question, limit: int,
                                      cursor: string, offset: nat, steps: nat)
    requires Sound(c) && Digested(saved) && ListOf(saved, q).Ok? && 1 <= limit <= 100
    requires |ListOf(saved, q).value| <= MAX_SAFE && |ListOf(saved, q).value| - offset < steps
    requires offset == 0 || offset < |ListOf(saved, q).value|
    requires Verbatim(saved.id) && Verbatim(Scope(q)) && LeadsTo(c, saved.id, Scope(q), limit, cursor, offset)
    ensures var walk := Follow(c, saved, q, limit, cursor, steps);
      var items := ListOf(saved, q).value;
      !walk.failed && walk.items == items[offset..] && Enough(|items| - offset, limit, walk.pages)
    decreases steps
  {
    hide Read, Sound, Issued, Enough, ListOf, Digested, Scope;
    var items := ListOf(saved, q).value;
    PageAt(c, saved, q, limit, cursor, offset);
    if offset + limit < |items| {
      var next := Issued(c, Position(saved.id, Scope(q), limit, offset + limit));
      FollowFrom(c, saved, q, limit, next, offset + limit, steps - 1);
      OneMorePage(|items| - (offset + limit), limit, Follow(c, saved, q, limit, next, steps - 1).pages);
      assert items[offset..offset + limit] + items[offset + limit..] == items[offset..];
    } else {
      OnePageIsEnough(|items| - offset, limit);
    }
  }

  /**
   * Following the cursors of any of a preview's lists from the first page never
   * fails, ends after as many pages as the list needs, and the pages in order
   * are the whole list, each item once.
   */
  lemma PagesAreTheWholeList(c: Codec, saved: Saved, q: Question, limit: int, steps: nat)
    requires Sound(c) && Digested(saved) && ListOf(saved, q).Ok? && 1 <= limit <= 100
    requires |ListOf(saved, q).value| <= MAX_SAFE && |ListOf(saved, q).value| < steps
    ensures var walk := Follow(c, saved, q, limit, "", steps);
      var items := ListOf(saved, q).value;
      !walk.failed && walk.items == items && Enough(|items|, limit, walk.pages)
  {
    ListedIsVerbatim(saved, q);
    FollowFrom(c, saved, q, limit, "", 0, steps);
    var items := ListOf(saved, q).value;
    assert items[0..] == items;
  }
}
