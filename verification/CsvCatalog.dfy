/** The source catalogue of a preview: every entity key of the file, once. */
module CsvCatalog {

  datatype Kind = People | Clients | Projects | Tasks

  datatype State = Excluded | Matched | Created | Rejected

  /** One source row: its line and the opaque key of each entity it names. */
  datatype Row = Row(line: int, person: string, client: string, project: string, task: string)

  /** The plan's items by line, with the status of each entity the item resolved. */
  type Selection = map<int, map<Kind, State>>

  datatype Entry = Entry(kind: Kind, key: string, parents: seq<(Kind, string)>, state: State)

  function KeyOf(row: Row, kind: Kind): string {
    match kind
    case People => row.person
    case Clients => row.client
    case Projects => row.project
    case Tasks => row.task
  }

  const KINDS := [People, Clients, Projects, Tasks]

  function ParentsOf(row: Row, kind: Kind): seq<(Kind, string)> {
    match kind
    case Projects => [(Clients, row.client)]
    case Tasks => [(Clients, row.client), (Projects, row.project)]
    case _ => []
  }

  predicate Selected(row: Row, chosen: Selection) { row.line in chosen }

  /** No plan item is itself marked excluded. */
  predicate Statuses(chosen: Selection) {
    forall line, kind :: line in chosen && kind in chosen[line] ==> chosen[line][kind] != Excluded
  }

  function StateOf(row: Row, kind: Kind, chosen: Selection): State {
    if row.line !in chosen then Excluded
    else if kind in chosen[row.line] then chosen[row.line][kind]
    else Matched
  }

  function EntryOf(row: Row, kind: Kind, chosen: Selection): Entry {
    Entry(kind, KeyOf(row, kind), ParentsOf(row, kind), StateOf(row, kind, chosen))
  }

  function Keep(rows: seq<Row>, chosen: Selection, selected: bool): seq<Row> {
    if rows == [] then []
    else (if Selected(rows[0], chosen) == selected then [rows[0]] else []) + Keep(rows[1..], chosen, selected)
  }

  /** The stable sort: selected rows first, file order otherwise. */
  function Ordered(rows: seq<Row>, chosen: Selection): seq<Row> {
    Keep(rows, chosen, true) + Keep(rows, chosen, false)
  }

  datatype Visit = Visit(row: Row, kind: Kind)

  function KeyAt(v: Visit): string { KeyOf(v.row, v.kind) }

  function RowVisits(row: Row): seq<Visit> {
    [Visit(row, KINDS[0]), Visit(row, KINDS[1]), Visit(row, KINDS[2]), Visit(row, KINDS[3])]
  }

  /** Every row in order, its four kinds in order. */
  function Visits(rows: seq<Row>): seq<Visit> {
    if rows == [] then [] else Visits(rows[..|rows| - 1]) + RowVisits(rows[|rows| - 1])
  }

  predicate Has(entries: seq<Entry>, key: string) {
    exists i :: 0 <= i < |entries| && entries[i].key == key
  }

  /** The catalogue after some visits: the first visit of a key makes its entry. */
  function Collect(visits: seq<Visit>, chosen: Selection): seq<Entry> {
    if visits == [] then []
    else
      var before := Collect(visits[..|visits| - 1], chosen);
      var v := visits[|visits| - 1];
      if Has(before, KeyAt(v)) then before else before + [EntryOf(v.row, v.kind, chosen)]
  }

  /** The catalogue of a file. */
  function Catalog(rows: seq<Row>, chosen: Selection): seq<Entry> {
    Collect(Visits(Ordered(rows, chosen)), chosen)
  }

  /** One more visit adds its entry exactly when its key is new. */
  function Visited(entries: seq<Entry>, v: Visit, chosen: Selection): seq<Entry> {
    if Has(entries, KeyAt(v)) then entries else entries + [EntryOf(v.row, v.kind, chosen)]
  }

  lemma CollectSnoc(visits: seq<Visit>, v: Visit, chosen: Selection)
    ensures Collect(visits + [v], chosen) == Visited(Collect(visits, chosen), v, chosen)
  {
    assert (visits + [v])[..|visits|] == visits;
  }

  lemma VisitsSnoc(rows: seq<Row>, row: Row)
    ensures Visits(rows + [row]) == Visits(rows) + RowVisits(row)
  {
    assert (rows + [row])[..|rows|] == rows;
  }

  /** The inner loop over the four kinds of one row. */
  method VisitRow(row: Row, chosen: Selection, before: seq<Entry>, ghost past: seq<Visit>)
    returns (entries: seq<Entry>)
    requires before == Collect(past, chosen)
    ensures entries == Collect(past + RowVisits(row), chosen)
  {
    hide Collect, Has, EntryOf;
    entries := before;
    ghost var here := RowVisits(row);
    assert past + here[..0] == past;
    for j := 0 to 4
      invariant entries == Collect(past + here[..j], chosen)
    {
      var v := Visit(row, KINDS[j]);
      assert past + here[..j + 1] == past + here[..j] + [v];
      CollectSnoc(past + here[..j], v, chosen);
      if !Has(entries, KeyOf(row, KINDS[j])) {
        entries := entries + [EntryOf(row, KINDS[j], chosen)];
      }
    }
    assert here[..4] == here;
  }

  method BuildCatalog(rows: seq<Row>, chosen: Selection) returns (entries: seq<Entry>)
    ensures entries == Catalog(rows, chosen)
  {
    hide Collect, Visits, Ordered, RowVisits;
    var ordered := Ordered(rows, chosen);
    entries := [];
    NothingVisited(chosen);
    for i := 0 to |ordered|
      invariant entries == Collect(Visits(ordered[..i]), chosen)
    {
      entries := VisitRow(ordered[i], chosen, entries, Visits(ordered[..i]));
      VisitsSnoc(ordered[..i], ordered[i]);
      assert ordered[..i + 1] == ordered[..i] + [ordered[i]];
    }
    assert ordered[..|ordered|] == ordered;
  }

  lemma NothingVisited(chosen: Selection)
    ensures Collect(Visits([]), chosen) == []
  {
  }

  // ---- what the catalogue says -----------------------------------------------------------

  /** Each entry was made by the first visit of its key. */
  predicate FirstVisit(visits: seq<Visit>, chosen: Selection, v: nat, e: Entry) {
    && v < |visits| && e == EntryOf(visits[v].row, visits[v].kind, chosen)
    && (forall u :: 0 <= u < v ==> KeyAt(visits[u]) != e.key)
  }

  ghost predicate HasFirstVisit(visits: seq<Visit>, chosen: Selection, e: Entry) {
    exists v :: FirstVisit(visits, chosen, v, e)
  }

  /** What a list of entries collected from some visits looks like. */
  ghost predicate Collected(c: seq<Entry>, visits: seq<Visit>, chosen: Selection) {
    && (forall i, j :: 0 <= i < j < |c| ==> c[i].key != c[j].key)
    && (forall u :: 0 <= u < |visits| ==> Has(c, KeyAt(visits[u])))
    && (forall i :: 0 <= i < |c| ==> HasFirstVisit(visits, chosen, c[i]))
  }

  lemma VisitedIsCollected(before: seq<Entry>, visits: seq<Visit>, v: Visit, chosen: Selection)
    requires Collected(before, visits, chosen)
    ensures Collected(Visited(before, v, chosen), visits + [v], chosen)
  {
    var c, all := Visited(before, v, chosen), visits + [v];
    forall u | 0 <= u < |all| ensures Has(c, KeyAt(all[u])) {
      if u < |visits| {
        assert Has(before, KeyAt(visits[u]));
        var i :| 0 <= i < |before| && before[i].key == KeyAt(visits[u]);
        assert c[i].key == KeyAt(all[u]);
      } else if !Has(before, KeyAt(v)) {
        assert c[|before|].key == KeyAt(v);
      }
    }
    forall i | 0 <= i < |c| ensures HasFirstVisit(all, chosen, c[i]) {
      if i < |before| {
        assert HasFirstVisit(visits, chosen, before[i]);
        var w :| FirstVisit(visits, chosen, w, before[i]);
        assert FirstVisit(all, chosen, w, c[i]);
      } else {
        NewKeyIsUnvisited(before, visits, KeyAt(v), chosen);
        assert FirstVisit(all, chosen, |visits|, c[i]);
      }
    }
  }

  lemma NewKeyIsUnvisited(before: seq<Entry>, visits: seq<Visit>, key: string, chosen: Selection)
    requires Collected(before, visits, chosen) && !Has(before, key)
    ensures forall u :: 0 <= u < |visits| ==> KeyAt(visits[u]) != key
  {
  }

  lemma {:induction false} EntriesAreFirstVisits(visits: seq<Visit>, chosen: Selection)
    ensures Collected(Collect(visits, chosen), visits, chosen)
  {
    if visits != [] {
      var n := |visits| - 1;
      EntriesAreFirstVisits(visits[..n], chosen);
      VisitedIsCollected(Collect(visits[..n], chosen), visits[..n], visits[n], chosen);
      assert visits == visits[..n] + [visits[n]];
      CollectSnoc(visits[..n], visits[n], chosen);
    }
  }

  /** Some column of the row carries this key. */
  predicate Carries(row: Row, key: string) {
    row.person == key || row.client == key || row.project == key || row.task == key
  }

  lemma {:induction false} KeepMembers(rows: seq<Row>, chosen: Selection, selected: bool)
    ensures forall r :: r in Keep(rows, chosen, selected) <==> r in rows && Selected(r, chosen) == selected
  {
    if rows != [] {
      KeepMembers(rows[1..], chosen, selected);
      assert rows == [rows[0]] + rows[1..];
    }
  }

  lemma {:induction false} KeepAppend(a: seq<Row>, b: seq<Row>, chosen: Selection, selected: bool)
    ensures Keep(a + b, chosen, selected) == Keep(a, chosen, selected) + Keep(b, chosen, selected)
  {
    if a == [] {
      assert a + b == b;
    } else {
      assert (a + b)[1..] == a[1..] + b;
      KeepAppend(a[1..], b, chosen, selected);
    }
  }

  lemma {:induction false} KeepAll(rows: seq<Row>, chosen: Selection, selected: bool)
    requires forall r :: r in rows ==> Selected(r, chosen) == selected
    ensures Keep(rows, chosen, selected) == rows && Keep(rows, chosen, !selected) == []
  {
    if rows != [] {
      KeepAll(rows[1..], chosen, selected);
      assert rows == [rows[0]] + rows[1..];
    }
  }

  lemma OneMore(r: Row, rows: seq<Row>)
    ensures multiset([r] + rows) == multiset{r} + multiset(rows)
  {
  }

  lemma KeepFirst(rows: seq<Row>, chosen: Selection, selected: bool)
    requires rows != []
    ensures var rest := Keep(rows[1..], chosen, selected);
      Keep(rows, chosen, selected) == if Selected(rows[0], chosen) == selected then [rows[0]] + rest else rest
  {
  }

  lemma {:induction false} KeepSplits(rows: seq<Row>, chosen: Selection)
    ensures multiset(Keep(rows, chosen, true)) + multiset(Keep(rows, chosen, false)) == multiset(rows)
  {
    if rows != [] {
      var r, rest := rows[0], rows[1..];
      KeepSplits(rest, chosen);
      assert rows == [r] + rest;
      KeepFirst(rows, chosen, true);
      KeepFirst(rows, chosen, false);
      hide Keep;
      OneMore(r, rest);
      OneMore(r, Keep(rest, chosen, Selected(r, chosen)));
    }
  }

  /**
   * The sort is a stable partition: every row as often as before, the selected
   * ones first, and each of the two groups in file order.
   */
  lemma OrderedSelectsFirst(rows: seq<Row>, chosen: Selection)
    ensures var o := Ordered(rows, chosen);
      && multiset(o) == multiset(rows) && (forall r :: r in o <==> r in rows)
      && SelectedFirst(o, chosen)
      && (forall selected :: Keep(o, chosen, selected) == Keep(rows, chosen, selected))
  {
    KeepMembers(rows, chosen, true);
    KeepMembers(rows, chosen, false);
    KeepSplits(rows, chosen);
    var yes, no := Keep(rows, chosen, true), Keep(rows, chosen, false);
    forall i | 0 <= i < |yes| ensures Selected((yes + no)[i], chosen) {
      assert yes[i] in yes;
    }
    forall i | |yes| <= i < |yes + no| ensures !Selected((yes + no)[i], chosen) {
      assert no[i - |yes|] in no;
    }
    KeepAll(yes, chosen, true);
    KeepAll(no, chosen, false);
    forall selected ensures Keep(yes + no, chosen, selected) == Keep(rows, chosen, selected) {
      KeepAppend(yes, no, chosen, selected);
    }
  }

  /** No unselected row stands in front of a selected one. */
  predicate SelectedFirst(rows: seq<Row>, chosen: Selection) {
    forall i, j :: 0 <= i < j < |rows| && Selected(rows[j], chosen) ==> Selected(rows[i], chosen)
  }

  predicate SelectedVisitsFirst(visits: seq<Visit>, chosen: Selection) {
    forall i, j :: 0 <= i < j < |visits| && Selected(visits[j].row, chosen) ==> Selected(visits[i].row, chosen)
  }

  lemma {:induction false} VisitsMembers(rows: seq<Row>)
    ensures forall v :: v in Visits(rows) <==> v.row in rows
  {
    if rows != [] {
      var rest, last := rows[..|rows| - 1], rows[|rows| - 1];
      VisitsMembers(rest);
      assert rows == rest + [last];
      forall v ensures v in Visits(rows) <==> v.row in rows {
        RowVisitsAll(last, v);
      }
    }
  }

  lemma {:induction false} VisitsInOrder(rows: seq<Row>, chosen: Selection)
    requires SelectedFirst(rows, chosen)
    ensures SelectedVisitsFirst(Visits(rows), chosen)
  {
    hide Selected;
    if rows != [] {
      var rest, last := rows[..|rows| - 1], rows[|rows| - 1];
      VisitsInOrder(rest, chosen);
      if Selected(last, chosen) {
        VisitsMembers(rest);
        forall i | 0 <= i < |Visits(rest)| ensures Selected(Visits(rest)[i].row, chosen) {
          assert Visits(rest)[i] in Visits(rest);
        }
      }
    }
  }

  lemma VisitsAreTheRows(rows: seq<Row>, chosen: Selection)
    ensures forall v :: v in Visits(rows) <==> v.row in rows
    ensures SelectedFirst(rows, chosen) ==> SelectedVisitsFirst(Visits(rows), chosen)
  {
    hide SelectedFirst, SelectedVisitsFirst;
    VisitsMembers(rows);
    if SelectedFirst(rows, chosen) {
      VisitsInOrder(rows, chosen);
    }
  }

  lemma RowVisitsAll(row: Row, v: Visit)
    ensures v in RowVisits(row) <==> v.row == row
  {
    if v.row == row {
      match v.kind
      case People => assert RowVisits(row)[0] == v;
      case Clients => assert RowVisits(row)[1] == v;
      case Projects => assert RowVisits(row)[2] == v;
      case Tasks => assert RowVisits(row)[3] == v;
    }
  }

  /** The visit in which a row shows one of its keys. */
  function VisitFor(r: Row, key: string): (v: Visit)
    requires Carries(r, key)
    ensures v.row == r && KeyAt(v) == key
  {
    Visit(r, if r.person == key then People else if r.client == key then Clients
             else if r.project == key then Projects else Tasks)
  }

  /** Every visit of the file belongs to one of its rows, and every key of a row is visited. */
  lemma EveryKeyIsVisited(rows: seq<Row>, chosen: Selection, r: Row, key: string) returns (u: nat)
    requires r in rows && Carries(r, key)
    ensures u < |Visits(Ordered(rows, chosen))| && Visits(Ordered(rows, chosen))[u] == VisitFor(r, key)
  {
    hide Visits, Ordered;
    var o := Ordered(rows, chosen);
    OrderedSelectsFirst(rows, chosen);
    VisitsAreTheRows(o, chosen);
    assert VisitFor(r, key) in Visits(o);
    u :| 0 <= u < |Visits(o)| && Visits(o)[u] == VisitFor(r, key);
  }

  lemma ListedIsCarried(rows: seq<Row>, chosen: Selection, e: Entry)
    requires e in Catalog(rows, chosen)
    ensures exists r :: r in rows && Carries(r, e.key)
  {
    hide Visits, Ordered, Collect;
    var v := FirstVisitOf(rows, chosen, e);
    var r := Visits(Ordered(rows, chosen))[v].row;
    assert r in rows && Carries(r, e.key);
  }

  lemma CarriedIsListed(rows: seq<Row>, chosen: Selection, r: Row, key: string)
    requires r in rows && Carries(r, key)
    ensures Has(Catalog(rows, chosen), key)
  {
    hide Visits, Ordered, Collect, Carries, Has;
    var u := EveryKeyIsVisited(rows, chosen, r, key);
    EntriesAreFirstVisits(Visits(Ordered(rows, chosen)), chosen);
    assert Has(Catalog(rows, chosen), KeyAt(Visits(Ordered(rows, chosen))[u]));
  }

  /** A key is listed exactly when some row carries it. */
  lemma KeysAreCarried(rows: seq<Row>, chosen: Selection, key: string)
    ensures Has(Catalog(rows, chosen), key) <==> exists r :: r in rows && Carries(r, key)
  {
    hide Catalog, Carries;
    var c := Catalog(rows, chosen);
    if Has(c, key) {
      var i :| 0 <= i < |c| && c[i].key == key;
      ListedIsCarried(rows, chosen, c[i]);
    }
    forall r | r in rows && Carries(r, key) ensures Has(c, key) {
      CarriedIsListed(rows, chosen, r, key);
    }
  }

  lemma FirstVisitOf(rows: seq<Row>, chosen: Selection, e: Entry) returns (v: nat)
    requires e in Catalog(rows, chosen)
    ensures FirstVisit(Visits(Ordered(rows, chosen)), chosen, v, e)
    ensures Visits(Ordered(rows, chosen))[v].row in rows
  {
    hide Visits, Ordered, Collect;
    var o := Ordered(rows, chosen);
    OrderedSelectsFirst(rows, chosen);
    VisitsAreTheRows(o, chosen);
    EntriesAreFirstVisits(Visits(o), chosen);
    var c := Catalog(rows, chosen);
    var i :| 0 <= i < |c| && c[i] == e;
    assert HasFirstVisit(Visits(o), chosen, c[i]);
    v :| FirstVisit(Visits(o), chosen, v, c[i]);
    assert Visits(o)[v] in Visits(o);
  }

  lemma ExcludedMeansUnselected(rows: seq<Row>, chosen: Selection, e: Entry)
    requires Statuses(chosen) && e in Catalog(rows, chosen)
    ensures e.state == Excluded <==> !(exists r :: r in rows && Selected(r, chosen) && Carries(r, e.key))
  {
    hide Visits, Ordered, Collect, Catalog;
    var o := Ordered(rows, chosen);
    var visits := Visits(o);
    var v := FirstVisitOf(rows, chosen, e);
    OrderedSelectsFirst(rows, chosen);
    VisitsAreTheRows(o, chosen);
    assert Carries(visits[v].row, e.key);
    assert e.state == Excluded <==> !Selected(visits[v].row, chosen);
    forall r | r in rows && Selected(r, chosen) && Carries(r, e.key) ensures Selected(visits[v].row, chosen) {
      var u := EveryKeyIsVisited(rows, chosen, r, e.key);
      assert KeyAt(visits[u]) == e.key && v <= u;
    }
  }

  lemma ParentIsListed(rows: seq<Row>, chosen: Selection, e: Entry, p: (Kind, string))
    requires e in Catalog(rows, chosen) && p in e.parents
    ensures Has(Catalog(rows, chosen), p.1)
  {
    hide Visits, Ordered, Catalog, Has;
    var v := FirstVisitOf(rows, chosen, e);
    var row := Visits(Ordered(rows, chosen))[v].row;
    assert Carries(row, p.1);
    KeysAreCarried(rows, chosen, p.1);
  }

  /**
   * Each key of the file appears exactly once; it is marked excluded exactly
   * when no selected row carries it; and every parent key an entry names is in
   * the catalogue too.
   */
  lemma CatalogIsComplete(rows: seq<Row>, chosen: Selection)
    requires Statuses(chosen)
    ensures var c := Catalog(rows, chosen);
      && (forall i, j :: 0 <= i < j < |c| ==> c[i].key != c[j].key)
      && (forall key :: Has(c, key) <==> exists r :: r in rows && Carries(r, key))
      && (forall e :: e in c ==>
            (e.state == Excluded <==> !(exists r :: r in rows && Selected(r, chosen) && Carries(r, e.key))))
      && (forall e, p :: e in c && p in e.parents ==> Has(c, p.1))
  {
    hide Collect, Visits, Ordered, Has, Carries;
    var c := Catalog(rows, chosen);
    EntriesAreFirstVisits(Visits(Ordered(rows, chosen)), chosen);
    forall key ensures Has(c, key) <==> exists r :: r in rows && Carries(r, key) {
      KeysAreCarried(rows, chosen, key);
    }
    forall e | e in c
      ensures e.state == Excluded <==> !(exists r :: r in rows && Selected(r, chosen) && Carries(r, e.key))
    {
      ExcludedMeansUnselected(rows, chosen, e);
    }
    forall e, p | e in c && p in e.parents ensures Has(c, p.1) {
      ParentIsListed(rows, chosen, e, p);
    }
  }

  /** Keys of different kinds never coincide. */
  predicate DisjointByKind(rows: seq<Row>) {
    forall r, q, k, l | r in rows && q in rows && k != l :: KeyOf(r, k) != KeyOf(q, l)
  }

  /** With keys disjoint by kind an entry has the kind of the column its key comes from. */
  lemma EntryKindIsColumn(rows: seq<Row>, chosen: Selection, e: Entry, row: Row, kind: Kind)
    requires DisjointByKind(rows) && row in rows && KeyOf(row, kind) == e.key && e in Catalog(rows, chosen)
    ensures e.kind == kind
  {
    hide Visits, Ordered, Catalog;
    var v := FirstVisitOf(rows, chosen, e);
    assert KeyOf(Visits(Ordered(rows, chosen))[v].row, e.kind) == e.key;
  }
}
