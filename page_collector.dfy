/**
 * What `fetchAllOpenGames` in src/services/teamSLService.js collects, as
 * functions of the first page and of the search endpoint: the page count,
 * the batches of page requests, and the merged, duplicate-free result list.
 * The method that performs the requests is `TeamSLService.FetchAllOpenGames`.
 */
module PageCollector {
  import opened Wrappers
  import opened Seqs
  import opened SyncData
  import opened UpstreamClient

  /** A page as `/rest/offenespiele/search` answers it: `{ total, results }`. */
  datatype Page = Page(total: Option<int>, results: Option<seq<GameRecord>>)

  /** The search endpoint of the current session; `None` when the request is rejected. */
  type Upstream = SearchPayload -> Option<Page>

  /** At most this many page requests are in flight together. */
  const BatchSize: int := 10

  /** The horizon `fetchOpenGames` uses when none is passed. */
  const DefaultHorizon: string := "all"

  /**
   * `Math.ceil(a / b)` for a positive divisor. Unlike `Paging.CeilDiv`,
   * which counts rows (a `nat`) over a page size of any sign and so needs
   * Infinity and NaN, this one takes the upstream's `total`, any integer,
   * over the caller's positive page size.
   */
  function CeilDiv(a: int, b: int): (r: int)
    requires b > 0
    ensures (r - 1) * b < a <= r * b
  {
    var q := (-a) / b;
    assert -a == q * b + (-a) % b;
    -q
  }

  /** `firstPage.total || 0`. */
  function TotalOf(first: Page): int {
    first.total.GetOr(0)
  }

  /** `totalPages`. */
  function TotalPages(first: Page, pageSize: int): int
    requires pageSize > 0
  {
    CeilDiv(TotalOf(first), pageSize)
  }

  /** The records a page delivers (`results`, or none). */
  function Records(pg: Page): seq<GameRecord> {
    pg.results.GetOr([])
  }

  /** The first request: page 0 with the caller's horizon. */
  function FirstRequest(pageSize: int, zeitraum: string, today: string): SearchPayload {
    BuildSearchPayload(None, today, 0, pageSize, zeitraum)
  }

  /** `fetchOpenGames(page, pageSize)`: pageFrom is the page index, the horizon the default. */
  function PageRequest(page: int, pageSize: int, today: string): SearchPayload {
    BuildSearchPayload(None, today, page, pageSize, DefaultHorizon)
  }

  /** `Math.min(batchStart + batchSize, totalPages)`. */
  function BatchEnd(batchStart: int, totalPages: int): int {
    if batchStart + BatchSize < totalPages then batchStart + BatchSize else totalPages
  }

  /** The integers `lo`, ..., `hi - 1`. */
  function Range(lo: int, hi: int): (r: seq<int>)
    ensures |r| == (if hi <= lo then 0 else hi - lo)
    ensures forall i :: 0 <= i < |r| ==> (r[i] == lo + i)
    decreases hi - lo
  {
    if hi <= lo then [] else Range(lo, hi - 1) + [hi - 1]
  }

  /** The page indices of the batches that start at `batchStart`, `batchStart + 10`, ... */
  function Batches(batchStart: int, totalPages: int): seq<seq<int>>
    decreases totalPages - batchStart
  {
    if batchStart >= totalPages then []
    else [Range(batchStart, BatchEnd(batchStart, totalPages))] + Batches(batchStart + BatchSize, totalPages)
  }

  /** The answers to the requests for pages `lo`, ..., `hi - 1`, in order. */
  function Responses(up: Upstream, lo: int, hi: int, pageSize: int, today: string): (r: seq<Option<Page>>)
    ensures |r| == (if hi <= lo then 0 else hi - lo)
    ensures forall i :: 0 <= i < |r| ==> (r[i] == up(PageRequest(lo + i, pageSize, today)))
    decreases hi - lo
  {
    if hi <= lo then []
    else Responses(up, lo, hi - 1, pageSize, today) + [up(PageRequest(hi - 1, pageSize, today))]
  }

  /**
   * `Promise.all(batch)` followed by the `forEach` over its pages: the
   * records of all pages in order, or nothing when any request failed.
   */
  function Gather(rs: seq<Option<Page>>): Option<seq<GameRecord>>
    decreases |rs|
  {
    if rs == [] then Some([])
    else match Gather(rs[..|rs| - 1])
      case None => None
      case Some(xs) =>
        match rs[|rs| - 1]
        case None => None
        case Some(pg) => Some(xs + Records(pg))
  }

  /** The records of the batch that starts at `batchStart`, if all its requests succeeded. */
  function BatchOutcome(up: Upstream, batchStart: int, totalPages: int, pageSize: int, today: string)
    : Option<seq<GameRecord>>
  {
    Gather(Responses(up, batchStart, BatchEnd(batchStart, totalPages), pageSize, today))
  }

  /** The records the batches from `batchStart` on add, batch by batch. */
  function Delivered(up: Upstream, batchStart: int, totalPages: int, pageSize: int, today: string)
    : seq<GameRecord>
    decreases totalPages - batchStart
  {
    if batchStart >= totalPages then []
    else
      BatchOutcome(up, batchStart, totalPages, pageSize, today).GetOr([])
      + Delivered(up, batchStart + BatchSize, totalPages, pageSize, today)
  }

  /** One batch step: the batch starting at `bs` comes first, then the later ones. */
  lemma BatchStep(up: Upstream, bs: int, tp: int, pageSize: int, today: string)
    requires bs < tp
    ensures Batches(bs, tp) == [Range(bs, BatchEnd(bs, tp))] + Batches(bs + BatchSize, tp)
    ensures Delivered(up, bs, tp, pageSize, today) ==
      BatchOutcome(up, bs, tp, pageSize, today).GetOr([]) + Delivered(up, bs + BatchSize, tp, pageSize, today)
  {
  }

  /** What one batch of the loop adds: its outcome, ahead of what the later batches deliver. */
  lemma BatchAdvance(up: Upstream, bs: int, tp: int, pageSize: int, today: string,
                     acc: seq<GameRecord>, responses: seq<Option<Page>>)
    requires bs < tp
    requires responses == Responses(up, bs, BatchEnd(bs, tp), pageSize, today)
    ensures AddAll(AddAll(acc, Gather(responses).GetOr([])), Delivered(up, bs + BatchSize, tp, pageSize, today)) ==
      AddAll(acc, Delivered(up, bs, tp, pageSize, today))
  {
    BatchStep(up, bs, tp, pageSize, today);
    AddAllAppend(acc, Gather(responses).GetOr([]), Delivered(up, bs + BatchSize, tp, pageSize, today));
  }

  /** The object `fetchAllOpenGames` returns. */
  datatype Collected = Collected(total: int, results: seq<GameRecord>, pages: int, pageSize: int)

  /**
   * The collection that follows a first page `first`: the first page's
   * results unchanged when there is at most one page, and otherwise the
   * records of the first page and of every fully answered batch, each
   * distinct record once, in order of first arrival.
   */
  function Collect(first: Page, up: Upstream, pageSize: int, today: string): (r: Collected)
    requires pageSize > 0
    ensures r.total == TotalOf(first) && r.pages == TotalPages(first, pageSize) && r.pageSize == pageSize
    ensures r.pages <= 1 ==> r.results == first.results.GetOr([])
    ensures r.pages > 1 ==> NoDups(r.results)
  {
    var tp := TotalPages(first, pageSize);
    if tp <= 1 then Collected(TotalOf(first), first.results.GetOr([]), tp, pageSize)
    else
      var all := Records(first) + Delivered(up, 1, tp, pageSize, today);
      DedupSpec(all);
      Collected(TotalOf(first), Dedup(all), tp, pageSize)
  }

  // ---- the batches ----------------------------------------------------------

  /** Consecutive ranges concatenate. */
  lemma RangeSplit(a: int, b: int, c: int)
    requires a <= b <= c
    ensures Range(a, b) + Range(b, c) == Range(a, c)
  {
    assert |Range(a, b) + Range(b, c)| == |Range(a, c)|;
  }

  /**
   * The batches request every page from `batchStart` to `totalPages - 1`
   * once, in increasing order, each batch being 1 to 10 consecutive pages.
   */
  lemma {:induction false} BatchesCover(batchStart: int, totalPages: int)
    ensures Flatten(Batches(batchStart, totalPages)) == Range(batchStart, totalPages)
    ensures forall k :: 0 <= k < |Batches(batchStart, totalPages)| ==>
      (var b := Batches(batchStart, totalPages)[k];
       1 <= |b| <= BatchSize && b == Range(b[0], b[0] + |b|))
    decreases totalPages - batchStart
  {
    if batchStart < totalPages {
      var e := BatchEnd(batchStart, totalPages);
      var rest := Batches(batchStart + BatchSize, totalPages);
      BatchesCover(batchStart + BatchSize, totalPages);
      if e < totalPages {
        RangeSplit(batchStart, e, totalPages);
      } else {
        assert rest == [];
      }
      assert Batches(batchStart, totalPages) == [Range(batchStart, e)] + rest;
      assert Flatten([Range(batchStart, e)] + rest) == Range(batchStart, e) + Flatten(rest) by {
        assert ([Range(batchStart, e)] + rest)[1..] == rest;
      }
    }
  }

  /** No page is requested twice. */
  lemma RangeNoDups(lo: int, hi: int)
    ensures NoDups(Range(lo, hi))
  {
  }

  // ---- what a batch delivers ------------------------------------------------

  /** A batch fails exactly when one of its requests fails. */
  lemma {:induction false} GatherFails(rs: seq<Option<Page>>)
    ensures Gather(rs).None? <==> exists i :: 0 <= i < |rs| && rs[i].None?
    decreases |rs|
  {
    if rs != [] {
      var n := |rs| - 1;
      GatherFails(rs[..n]);
      assert forall i :: 0 <= i < n ==> rs[i] == rs[..n][i];
    }
  }

  /** A batch that succeeds delivers exactly the records of its pages. */
  lemma {:induction false} GatherMembers(rs: seq<Option<Page>>, x: GameRecord)
    requires Gather(rs).Some?
    ensures x in Gather(rs).value <==> exists i :: 0 <= i < |rs| && rs[i].Some? && x in Records(rs[i].value)
    decreases |rs|
  {
    if rs != [] {
      var n := |rs| - 1;
      var init := rs[..n];
      GatherMembers(init, x);
      assert forall i :: 0 <= i < n ==> rs[i] == init[i];
      assert Gather(rs).value == Gather(init).value + Records(rs[n].value);
    }
  }

  /** The first page of the batch that contains page `p >= 1`. */
  function BatchStartOf(p: int): int {
    1 + (p - 1) / BatchSize * BatchSize
  }

  /** Page `p` was answered and every other request of its batch succeeded too. */
  predicate PageKept(up: Upstream, p: int, totalPages: int, pageSize: int, today: string) {
    up(PageRequest(p, pageSize, today)).Some? &&
    BatchOutcome(up, BatchStartOf(p), totalPages, pageSize, today).Some?
  }

  /** A record arrives from a batch exactly when one of its pages holds it and no request of it failed. */
  lemma BatchMembers(up: Upstream, bs: int, tp: int, pageSize: int, today: string, x: GameRecord)
    requires bs >= 1 && (bs - 1) % BatchSize == 0 && bs < tp
    ensures x in BatchOutcome(up, bs, tp, pageSize, today).GetOr([]) <==>
      exists p :: bs <= p < BatchEnd(bs, tp) && PageKept(up, p, tp, pageSize, today) &&
        x in Records(up(PageRequest(p, pageSize, today)).value)
  {
    var e := BatchEnd(bs, tp);
    var rs := Responses(up, bs, e, pageSize, today);
    GatherFails(rs);
    if Gather(rs).Some? {
      GatherMembers(rs, x);
    }
    assert forall p :: bs <= p < e ==> BatchStartOf(p) == bs;
    if x in BatchOutcome(up, bs, tp, pageSize, today).GetOr([]) {
      var i :| 0 <= i < |rs| && rs[i].Some? && x in Records(rs[i].value);
      assert PageKept(up, bs + i, tp, pageSize, today);
    }
    if exists p :: bs <= p < e && PageKept(up, p, tp, pageSize, today) &&
        x in Records(up(PageRequest(p, pageSize, today)).value) {
      var p :| bs <= p < e && PageKept(up, p, tp, pageSize, today) &&
        x in Records(up(PageRequest(p, pageSize, today)).value);
      assert rs[p - bs] == up(PageRequest(p, pageSize, today));
    }
  }

  /**
   * The batches from `bs` on deliver a record exactly when some page of
   * theirs holds it and its whole batch was answered.
   */
  lemma {:induction false} DeliveredMembers(up: Upstream, bs: int, tp: int, pageSize: int, today: string, x: GameRecord)
    requires bs >= 1 && (bs - 1) % BatchSize == 0
    ensures x in Delivered(up, bs, tp, pageSize, today) <==>
      exists p :: bs <= p < tp && PageKept(up, p, tp, pageSize, today) &&
        x in Records(up(PageRequest(p, pageSize, today)).value)
    decreases tp - bs
  {
    if bs < tp {
      BatchMembers(up, bs, tp, pageSize, today, x);
      DeliveredMembers(up, bs + BatchSize, tp, pageSize, today, x);
      if BatchEnd(bs, tp) == tp {
        assert Delivered(up, bs + BatchSize, tp, pageSize, today) == [];
      }
    }
  }

  /**
   * With more than one page, the merged results hold a record exactly when
   * the first page or a page of a fully answered batch holds it: a batch
   * with a failed request adds nothing.
   */
  lemma CollectMembers(first: Page, up: Upstream, pageSize: int, today: string, x: GameRecord)
    requires pageSize > 0 && TotalPages(first, pageSize) > 1
    ensures var tp := TotalPages(first, pageSize);
      x in Collect(first, up, pageSize, today).results <==>
        x in Records(first) ||
        exists p :: 1 <= p < tp && PageKept(up, p, tp, pageSize, today) &&
          x in Records(up(PageRequest(p, pageSize, today)).value)
  {
    var tp := TotalPages(first, pageSize);
    DedupSpec(Records(first) + Delivered(up, 1, tp, pageSize, today));
    DeliveredMembers(up, 1, tp, pageSize, today, x);
  }

  /** Every record of the first page is kept. */
  lemma FirstPageKept(first: Page, up: Upstream, pageSize: int, today: string, x: GameRecord)
    requires pageSize > 0 && x in Records(first)
    ensures x in Collect(first, up, pageSize, today).results
  {
    if TotalPages(first, pageSize) > 1 {
      CollectMembers(first, up, pageSize, today, x);
    }
  }
}
