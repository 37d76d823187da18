/**
 * `getAllSpiele` of src/controllers/spieleController.js: one page of the
 * open games, filtered by date, league, venue or a free-text search, with
 * the page arithmetic and the filter values the client offers. The table
 * is the list of rows in the order the database returns them.
 */
module SpieleController {
  import opened Wrappers
  import opened Seqs
  import opened Strings
  import opened SyncData
  import opened Paging

  // ---- query ---------------------------------------------------------------------

  /**
   * The query string. `page` and `limit` are `parseInt` of their values
   * (defaults 1 and 20); the others are absent when not sent.
   */
  datatype Query = Query(
    page: int, limit: int,
    spieldatum: Option<string>, ligaName: Option<string>, spielfeldName: Option<string>, search: Option<string>,
    sortBy: Option<string>, sortOrder: Option<string>)

  /** A query value that JavaScript treats as true. */
  predicate Given(o: Option<string>) {
    o.Some? && o.value != ""
  }

  /** `Math.min(parseInt(limit), 100)` */
  function PageSize(limit: int): (r: int)
    ensures r <= 100 && r <= limit && (r == limit || r == 100)
  {
    if limit < 100 then limit else 100
  }

  // ---- sort whitelist --------------------------------------------------------------

  const SortFields: seq<string> := ["spieldatum", "ligaName", "spielfeldName"]

  /** `sortBy` when it is one of the sortable fields, else "spieldatum". */
  function SortBy(sortBy: Option<string>): (r: string)
    ensures r in SortFields
    ensures sortBy.Some? && sortBy.value in SortFields ==> r == sortBy.value
    ensures (sortBy.None? || sortBy.value !in SortFields) ==> r == "spieldatum"
  {
    if sortBy.Some? && sortBy.value in SortFields then sortBy.value else "spieldatum"
  }

  /** `sortOrder.toUpperCase()` when that is ASC or DESC, else "ASC" (the default is "ASC"). */
  function SortOrder(sortOrder: Option<string>): (r: string)
    ensures r == "ASC" || r == "DESC"
    ensures sortOrder.Some? && ToUpper(sortOrder.value) in ["ASC", "DESC"] ==> r == ToUpper(sortOrder.value)
    ensures sortOrder.None? || ToUpper(sortOrder.value) !in ["ASC", "DESC"] ==> r == "ASC"
  {
    if sortOrder.Some? && ToUpper(sortOrder.value) in ["ASC", "DESC"] then ToUpper(sortOrder.value) else "ASC"
  }

  /** Any spelling of "desc" selects descending order; a second pass through the fallbacks changes nothing. */
  lemma SortFallbacksSettle(sortBy: Option<string>, sortOrder: Option<string>)
    ensures SortOrder(Some("desc")) == "DESC" && SortOrder(Some("Desc")) == "DESC"
    ensures SortBy(Some(SortBy(sortBy))) == SortBy(sortBy)
    ensures SortOrder(Some(SortOrder(sortOrder))) == SortOrder(sortOrder)
  {
    var d := ToUpper("desc");
    assert d[0] == 'D' && d[1] == 'E' && d[2] == 'S' && d[3] == 'C';
    assert d == "DESC";
    var d2 := ToUpper("Desc");
    assert d2[0] == 'D' && d2[1] == 'E' && d2[2] == 'S' && d2[3] == 'C';
    assert d2 == "DESC";
    var o := SortOrder(sortOrder);
    if o == "ASC" {
      var a := ToUpper("ASC");
      assert a[0] == 'A' && a[1] == 'S' && a[2] == 'C';
      assert a == "ASC";
    } else {
      var e := ToUpper("DESC");
      assert e[0] == 'D' && e[1] == 'E' && e[2] == 'S' && e[3] == 'C';
      assert e == "DESC";
    }
  }

  // ---- where clause --------------------------------------------------------------

  /** The date condition: none, or equality with `parseInt(spieldatum)` (`None` for NaN). */
  datatype DateCond = AnyDate | DateIs(n: Option<int>)

  /** The where clause: date, two LIKE filters, and the free-text search. */
  datatype Where = Where(spieldatum: DateCond, ligaName: Option<string>, spielfeldName: Option<string>, search: Option<string>)

  /** The where clause as `getAllSpiele` builds it. */
  function WhereOf(q: Query): Where {
    Where(
      if Given(q.spieldatum) then DateIs(ParseInt(q.spieldatum.value)) else AnyDate,
      if Given(q.ligaName) && !Given(q.search) then q.ligaName else None,
      if Given(q.spielfeldName) && !Given(q.search) then q.spielfeldName else None,
      if Given(q.search) then q.search else None)
  }

  /** The assignments and deletes that build `whereClause`. */
  method BuildWhere(q: Query) returns (w: Where)
    ensures w == WhereOf(q)
  {
    w := Where(AnyDate, None, None, None);
    if Given(q.spieldatum) {
      w := w.(spieldatum := DateIs(ParseInt(q.spieldatum.value)));
    }
    if Given(q.ligaName) {
      w := w.(ligaName := q.ligaName);
    }
    if Given(q.spielfeldName) {
      w := w.(spielfeldName := q.spielfeldName);
    }
    if Given(q.search) {
      w := w.(ligaName := None, spielfeldName := None, search := q.search);
    }
  }

  /** `column LIKE '%term%'`: the term occurs in the column, ignoring case; a null column never matches. */
  predicate Like(column: Option<string>, term: string) {
    column.Some? && Contains(ToLower(column.value), ToLower(term))
  }

  /** The ten columns the free-text search looks at. */
  function SearchColumns(s: SpielRow): seq<Option<string>> {
    [Some(s.heimMannschaftName), Some(s.gastMannschaftName), s.sr1VereinName, s.sr2VereinName, s.sr3VereinName,
     Some(s.ligaName), Some(s.spielfeldName), Some(s.spielStrasse), Some(s.spielPlz), Some(s.spielOrt)]
  }

  /** A row satisfies the where clause. */
  predicate Satisfies(s: SpielRow, w: Where) {
    && (w.spieldatum.DateIs? ==> w.spieldatum.n.Some? && s.spieldatum == w.spieldatum.n)
    && (w.ligaName.Some? ==> Like(Some(s.ligaName), w.ligaName.value))
    && (w.spielfeldName.Some? ==> Like(Some(s.spielfeldName), w.spielfeldName.value))
    && (w.search.Some? ==> exists c :: c in SearchColumns(s) && Like(c, w.search.value))
  }

  /**
   * With a search term the league and venue filters are ignored: a row is
   * selected iff it has the requested date (if any) and the term occurs in
   * one of the ten text columns. Without one, each given filter must hold.
   */
  lemma SearchOverridesFilters(q: Query, s: SpielRow)
    ensures Given(q.search) ==>
      (Satisfies(s, WhereOf(q)) <==>
        && (Given(q.spieldatum) ==> ParseInt(q.spieldatum.value).Some? && s.spieldatum == ParseInt(q.spieldatum.value))
        && exists c :: c in SearchColumns(s) && Like(c, q.search.value))
    ensures Given(q.search) ==> Satisfies(s, WhereOf(q)) == Satisfies(s, WhereOf(q.(ligaName := None, spielfeldName := None)))
    ensures !Given(q.search) ==>
      (Satisfies(s, WhereOf(q)) <==>
        && (Given(q.spieldatum) ==> ParseInt(q.spieldatum.value).Some? && s.spieldatum == ParseInt(q.spieldatum.value))
        && (Given(q.ligaName) ==> Like(Some(s.ligaName), q.ligaName.value))
        && (Given(q.spielfeldName) ==> Like(Some(s.spielfeldName), q.spielfeldName.value)))
  {
  }

  // ---- available filters ---------------------------------------------------------

  /** The three lists of filter values the client offers. */
  datatype Filters = Filters(spielfeldName: seq<string>, ligaName: seq<string>, spieldatum: seq<int>)

  predicate NonEmpty(s: string) {
    s != ""
  }

  function IntLe(a: int, b: int): bool {
    a <= b
  }

  function Venue(s: SpielRow): string {
    s.spielfeldName
  }

  function League(s: SpielRow): string {
    s.ligaName
  }

  /** `spieldatum` as `filter(Boolean)` sees it: null and 0 are dropped. */
  function Dates(rows: seq<SpielRow>): (r: seq<int>)
    ensures forall d :: d in r <==> d != 0 && exists k :: 0 <= k < |rows| && rows[k].spieldatum == Some(d)
    decreases |rows|
  {
    if rows == [] then []
    else
      var rest := Dates(rows[1..]);
      assert forall d :: (exists k :: 0 <= k < |rows[1..]| && rows[1..][k].spieldatum == Some(d)) <==>
                         (exists k :: 1 <= k < |rows| && rows[k].spieldatum == Some(d)) by {
        forall d, k | 1 <= k < |rows| && rows[k].spieldatum == Some(d)
          ensures rows[1..][k - 1].spieldatum == Some(d) { }
      }
      (if rows[0].spieldatum.Some? && rows[0].spieldatum.value != 0 then [rows[0].spieldatum.value] else []) + rest
  }

  /** `availableFilters`: each list the distinct truthy values, sorted. */
  function AvailableFilters(rows: seq<SpielRow>): Filters {
    Filters(
      SortedDistinct(Filter(NonEmpty, Map(Venue, rows)), LexLe),
      SortedDistinct(Filter(NonEmpty, Map(League, rows)), LexLe),
      SortedDistinct(Dates(rows), IntLe))
  }

  lemma LexLeOrders()
    ensures TotalPreorder(LexLe)
  {
    forall a, b ensures LexLe(a, b) || LexLe(b, a) {
      LexLeTotal(a, b);
    }
    forall a, b, c | LexLe(a, b) && LexLe(b, c) ensures LexLe(a, c) {
      LexLeTrans(a, b, c);
    }
  }

  /**
   * Each filter list is strictly increasing (so free of duplicates) and
   * holds exactly the non-empty (for dates: non-zero) values some row has.
   */
  lemma AvailableFiltersSpec(rows: seq<SpielRow>, name: string, date: int)
    ensures var f := AvailableFilters(rows);
      && Sorted(f.spielfeldName, LexLe) && NoDups(f.spielfeldName)
      && Sorted(f.ligaName, LexLe) && NoDups(f.ligaName)
      && Sorted(f.spieldatum, IntLe) && NoDups(f.spieldatum)
      && (name in f.spielfeldName <==> name != "" && exists k :: 0 <= k < |rows| && rows[k].spielfeldName == name)
      && (name in f.ligaName <==> name != "" && exists k :: 0 <= k < |rows| && rows[k].ligaName == name)
      && (date in f.spieldatum <==> date != 0 && exists k :: 0 <= k < |rows| && rows[k].spieldatum == Some(date))
  {
    LexLeOrders();
    SortedDistinctSpec(Filter(NonEmpty, Map(Venue, rows)), LexLe);
    SortedDistinctSpec(Filter(NonEmpty, Map(League, rows)), LexLe);
    SortedDistinctSpec(Dates(rows), IntLe);
    FilterOfMapped(rows, Venue, name);
    FilterOfMapped(rows, League, name);
  }

  lemma FilterOfMapped(rows: seq<SpielRow>, f: SpielRow -> string, name: string)
    ensures name in Filter(NonEmpty, Map(f, rows)) <==> name != "" && exists k :: 0 <= k < |rows| && f(rows[k]) == name
  {
    var m := Map(f, rows);
    if name != "" && exists k :: 0 <= k < |rows| && f(rows[k]) == name {
      var k :| 0 <= k < |rows| && f(rows[k]) == name;
      assert m[k] == name;
    }
    if name in Filter(NonEmpty, m) {
      assert name in m;
      var k :| 0 <= k < |m| && m[k] == name;
    }
  }

  // ---- items and the page --------------------------------------------------------

  /**
   * A returned game: the row without `rawData`, the club and qualification
   * ids and the timestamps, which `getAllSpiele` deletes.
   */
  datatype SpielItem = SpielItem(
    spielplanId: int, spieldatum: Option<int>,
    heimMannschaftName: string, gastMannschaftName: string,
    ligaName: string, spielfeldName: string, spielStrasse: string, spielPlz: string, spielOrt: string,
    sr1OffenAngeboten: bool, sr2OffenAngeboten: bool, sr3OffenAngeboten: bool,
    sr1VereinName: Option<string>, sr2VereinName: Option<string>, sr3VereinName: Option<string>)

  function Item(id: int, s: SpielRow): (r: SpielItem)
    ensures r.spielplanId == id && r.spieldatum == s.spieldatum && r.ligaName == s.ligaName
  {
    SpielItem(id, s.spieldatum, s.heimMannschaftName, s.gastMannschaftName, s.ligaName, s.spielfeldName,
      s.spielStrasse, s.spielPlz, s.spielOrt, s.sr1OffenAngeboten, s.sr2OffenAngeboten, s.sr3OffenAngeboten,
      s.sr1VereinName, s.sr2VereinName, s.sr3VereinName)
  }

  /** A row of the table with its primary key. */
  datatype Keyed = Keyed(id: int, row: SpielRow)

  datatype Pagination = Pagination(
    currentPage: int, pageSize: int, totalItems: nat, totalPages: Num,
    hasNextPage: bool, hasPrevPage: bool, nextPage: Option<int>, prevPage: Option<int>)

  /** The pagination block of the answer. */
  function Paginate(page: int, size: int, count: nat): (r: Pagination)
    ensures r.totalPages == CeilDiv(count, size)
    ensures r.hasNextPage <==> LessThan(page, CeilDiv(count, size))
    ensures r.hasPrevPage <==> page > 1
    ensures r.nextPage == (if r.hasNextPage then Some(page + 1) else None)
    ensures r.prevPage == (if r.hasPrevPage then Some(page - 1) else None)
  {
    var total := CeilDiv(count, size);
    var hasNext := LessThan(page, total);
    var hasPrev := page > 1;
    Pagination(page, size, count, total, hasNext, hasPrev,
      if hasNext then Some(page + 1) else None, if hasPrev then Some(page - 1) else None)
  }

  datatype Answer = Failed | Page(spiele: seq<SpielItem>, pagination: Pagination, availableFilters: Filters)

  predicate Selected(w: Where, k: Keyed) {
    Satisfies(k.row, w)
  }

  /** The rows the where clause selects, in table order. */
  function Selection(table: seq<Keyed>, w: Where): seq<Keyed> {
    Filter((k: Keyed) => Selected(w, k), table)
  }

  function ToItem(k: Keyed): SpielItem {
    Item(k.id, k.row)
  }

  function Rows(table: seq<Keyed>): seq<SpielRow> {
    Map((k: Keyed) => k.row, table)
  }

  /** The `map` over the page's rows that deletes the internal fields of each one. */
  method StripItems(page: seq<Keyed>) returns (items: seq<SpielItem>)
    ensures |items| == |page|
    ensures forall i :: 0 <= i < |page| ==> items[i] == Item(page[i].id, page[i].row)
  {
    items := [];
    for i := 0 to |page|
      invariant |items| == i
      invariant forall j :: 0 <= j < i ==> items[j] == Item(page[j].id, page[j].row)
    {
      items := items + [Item(page[i].id, page[i].row)];
    }
  }

  /**
   * A date filter that `parseInt` turns into NaN. Sequelize writes NaN into
   * the SQL as the bare word `NaN`, which MySQL reads as an unknown column.
   */
  predicate NaNDate(q: Query) {
    Given(q.spieldatum) && ParseInt(q.spieldatum.value).None?
  }

  /**
   * `getAllSpiele` over the table in the database's order for the chosen
   * sort. A negative LIMIT or OFFSET, or a NaN date, is an SQL error,
   * answered 500.
   */
  function GetAllSpiele(table: seq<Keyed>, q: Query): Answer {
    var size := PageSize(q.limit);
    var offset := Offset(q.page, size);
    if size < 0 || offset < 0 || NaNDate(q) then Failed
    else
      var selected := Selection(table, WhereOf(q));
      Page(Map(ToItem, Window(selected, offset, size)),
           Paginate(q.page, size, |selected|),
           AvailableFilters(Rows(table)))
  }

  /** The items of a page are selected rows, stripped. */
  lemma PageItemsSelected(table: seq<Keyed>, w: Where, offset: nat, size: nat, i: int)
    requires 0 <= i < |Window(Selection(table, w), offset, size)|
    ensures var k := Window(Selection(table, w), offset, size)[i];
            k in table && Satisfies(k.row, w) && Map(ToItem, Window(Selection(table, w), offset, size))[i] == Item(k.id, k.row)
  {
    var selected := Selection(table, w);
    var k := Window(selected, offset, size)[i];
    assert k == selected[offset + i];
  }

  /**
   * A request fails iff LIMIT or OFFSET is negative or the date filter is
   * NaN, so a page's date filter is a number. A page holds the selected
   * rows from the offset on, at most a page size of them and a full page
   * whenever more rows follow; `totalItems` counts every selected row, and
   * the filter lists come from the whole table.
   */
  lemma GetAllSpieleSpec(table: seq<Keyed>, q: Query)
    ensures GetAllSpiele(table, q).Failed? <==> PageSize(q.limit) < 0 || Offset(q.page, PageSize(q.limit)) < 0 || NaNDate(q)
    ensures GetAllSpiele(table, q).Page? && WhereOf(q).spieldatum.DateIs? ==> WhereOf(q).spieldatum.n.Some?
    ensures GetAllSpiele(table, q).Page? ==>
      var a := GetAllSpiele(table, q);
      var w := WhereOf(q);
      var size := PageSize(q.limit);
      && |a.spiele| <= size
      && a.pagination.totalItems == |Selection(table, w)|
      && a.pagination.pageSize == size && a.pagination.currentPage == q.page
      && a.availableFilters == AvailableFilters(Rows(table))
      && (forall i :: 0 <= i < |a.spiele| ==>
            exists k :: k in table && Satisfies(k.row, w) && a.spiele[i] == Item(k.id, k.row))
      && (a.pagination.hasNextPage && size > 0 ==> |a.spiele| == size)
  {
    var size := PageSize(q.limit);
    var offset := Offset(q.page, size);
    if !(size < 0 || offset < 0 || NaNDate(q)) {
      var w := WhereOf(q);
      var selected := Selection(table, w);
      var win := Window(selected, offset, size);
      var a := GetAllSpiele(table, q);
      assert a.spiele == Map(ToItem, win);
      forall i | 0 <= i < |a.spiele|
        ensures exists k :: k in table && Satisfies(k.row, w) && a.spiele[i] == Item(k.id, k.row)
      {
        PageItemsSelected(table, w, offset, size, i);
        var k := win[i];
        assert k in table && Satisfies(k.row, w) && a.spiele[i] == Item(k.id, k.row);
      }
      if a.pagination.hasNextPage && size > 0 {
        PageFromOne(q.page, size);
        NextPageIffMoreItems(q.page, size, |selected|);
      }
    }
  }
}
