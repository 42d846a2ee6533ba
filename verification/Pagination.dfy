/** Paging through the run log, over the machine's 64-bit integers. */
module Pagination {
  import opened Machine
  import opened RunLog
  import opened LogSearch
  import opened Query

  datatype Pagination = Pagination(
    page: int, totalPages: int, total: int, baseUrl: string, pageSep: string,
    hasPrev: bool, hasNext: bool, prevPage: int, nextPage: int)

  function AtLeastOne(x: int): int { if x < 1 then 1 else x }

  function TotalPages(total: int, pageSize: int): int {
    AtLeastOne(Quotient(Wrap(total + AtLeastOne(pageSize) - 1), AtLeastOne(pageSize)))
  }

  function Clamped(page: int, totalPages: int): int {
    if AtLeastOne(page) > totalPages then totalPages else AtLeastOne(page)
  }

  method NewPagination(page: int, total: int, pageSize: int, baseUrl: string) returns (p: Pagination)
    requires Int64(page) && Int64(pageSize) && 0 <= total < TWO63
    ensures p.totalPages == TotalPages(total, pageSize) && p.page == Clamped(page, p.totalPages)
    ensures 1 <= p.page <= p.totalPages && (1 <= page <= p.totalPages ==> p.page == page)
    ensures (page < 1 ==> p.page == 1) && (page > p.totalPages ==> p.page == p.totalPages)
    ensures p.hasPrev <==> p.page != 1
    ensures p.hasNext <==> p.page != p.totalPages
    ensures p.prevPage == p.page - 1 && p.nextPage == p.page + 1
    ensures p.pageSep == (if '?' in baseUrl then "&" else "?") && p.total == total && p.baseUrl == baseUrl
  {
    var size, current := pageSize, page;
    if size < 1 {
      size := 1;
    }
    var totalPages := Quotient(Wrap(total + size - 1), size);
    if totalPages < 1 {
      totalPages := 1;
    }
    if current < 1 {
      current := 1;
    }
    if current > totalPages {
      current := totalPages;
    }
    var pageSep := "?";
    if '?' in baseUrl {
      pageSep := "&";
    }
    p := Pagination(current, totalPages, total, baseUrl, pageSep,
                    current > 1, current < totalPages, current - 1, current + 1);
  }

  function Offset(page: int, pageSize: int): int { Wrap((page - 1) * pageSize) }

  // ---------- The list query ----------

  function Where(f: Filter): RunRow -> bool { (row: RunRow) => Selected(f, row) }

  // The selected rows, newest first.
  function NewestFirst(runs: map<int, RunRow>, last: nat, f: Filter): seq<(int, RunRow)> {
    Newest(runs, last, Where(f))
  }

  // The list is exactly the selected rows, each once, newest first.
  lemma NewestFirstIsExact(runs: map<int, RunRow>, last: nat, f: Filter, id: int, row: RunRow)
    ensures Descending(NewestFirst(runs, last, f))
    ensures Lists(NewestFirst(runs, last, f), id, row)
       <==> 1 <= id <= last && id in runs && runs[id] == row && Selected(f, row)
  {
    NewestIsExact(runs, last, Where(f), id, row);
    assert Where(f)(row) <==> Selected(f, row);
  }

  // What one request for a page shows.
  function Shown<T>(rows: seq<T>, limit: int, page: int): seq<T> {
    Page(rows, limit, Offset(Clamped(page, TotalPages(|rows|, limit)), limit))
  }

  function FirstPages<T>(rows: seq<T>, limit: int, n: nat): seq<T> {
    if n == 0 then [] else FirstPages(rows, limit, n - 1) + Shown(rows, limit, n)
  }

  function AllPages<T>(rows: seq<T>, limit: int): seq<T> {
    FirstPages(rows, limit, TotalPages(|rows|, limit))
  }

  lemma QuotientIsPositive(x: int, d: int)
    requires x >= d > 0
    ensures x / d >= 1
  {}

  // Without overflow the page count is the number of pages that rows need, and at least one.
  lemma CountsPages(total: nat, limit: int)
    requires 1 <= limit < TWO63 && total + limit - 1 < TWO63
    ensures var t := TotalPages(total, limit);
            && total <= t * limit && (total > 0 ==> (t - 1) * limit < total) && (total == 0 ==> t == 1)
  {
    var x := total + limit - 1;
    WrapIsIdentity(x);
    assert x == limit * (x / limit) + x % limit;
    var q := x / limit;
    assert q * limit == limit * q;
    if total == 0 { assert q == 0; }
    if total > 0 { QuotientIsPositive(x, limit); }
    assert (q - 1) * limit == q * limit - limit;
  }

  // Where page n of t starts, in rows.
  lemma PageBounds(total: nat, limit: int, n: nat)
    requires 1 <= limit < TWO63 && total + limit - 1 < TWO63 && 1 <= n <= TotalPages(total, limit)
    ensures 0 <= (n - 1) * limit <= total && n * limit == (n - 1) * limit + limit
    ensures n < TotalPages(total, limit) <==> n * limit < total
    ensures total > 0 ==> (n - 1) * limit < total
    ensures Clamped(n, TotalPages(total, limit)) == n && Offset(n, limit) == (n - 1) * limit
  {
    var t := TotalPages(total, limit);
    CountsPages(total, limit);
    Monotone(0, n - 1, limit);
    Monotone(n - 1, t - 1, limit);
    if n < t { Monotone(n, t - 1, limit); }
    WrapIsIdentity((n - 1) * limit);
  }

  lemma {:induction false} FirstPagesArePrefix<T>(rows: seq<T>, limit: int, n: nat)
    requires 1 <= limit < TWO63 && |rows| + limit - 1 < TWO63 && n <= TotalPages(|rows|, limit)
    ensures FirstPages(rows, limit, n) == rows[..if n * limit < |rows| then n * limit else |rows|]
  {
    if n > 0 {
      FirstPagesArePrefix(rows, limit, n - 1);
      PageBounds(|rows|, limit, n);
      PageFrom(rows, limit, (n - 1) * limit);
    }
  }

  lemma PageFrom<T>(rows: seq<T>, limit: int, at: int)
    requires limit >= 1 && 0 <= at <= |rows|
    ensures var upto := if at + limit < |rows| then at + limit else |rows|;
            Page(rows, limit, at) == rows[at..upto] && rows[..at] + Page(rows, limit, at) == rows[..upto]
  {}

  // A next page is offered exactly when rows remain after the one shown.
  lemma HasNextMeansMore<T>(rows: seq<T>, limit: int, page: int)
    requires 1 <= limit < TWO63 && |rows| + limit - 1 < TWO63 && Int64(page)
    ensures var t := TotalPages(|rows|, limit); var p := Clamped(page, t);
            && (p != t <==> Offset(p, limit) + limit < |rows|)
            && (rows != [] ==> Shown(rows, limit, page) != [])
  {
    PageBounds(|rows|, limit, Clamped(page, TotalPages(|rows|, limit)));
  }

  // ---------- Tiling ----------

  lemma OverflowGivesOnePage(total: nat, limit: int)
    requires 1 <= limit < TWO63 && total < TWO63 <= total + limit - 1
    ensures TotalPages(total, limit) == 1
  {
    WrapOverflows(total + limit - 1);
    QuotientOfNegative(total + limit - 1 - 2 * TWO63, limit);
  }

  lemma {:induction false} EmptyPages<T>(rows: seq<T>, n: nat)
    ensures FirstPages(rows, 0, n) == []
  {
    if n > 0 { EmptyPages(rows, n - 1); }
  }

  // With no limit the first two pages are the whole log each.
  lemma {:induction false} UnlimitedPages<T>(rows: seq<T>, limit: int, n: nat)
    requires -TWO63 <= limit < 0 && |rows| < TWO63 && 1 <= n <= TotalPages(|rows|, limit)
    ensures TotalPages(|rows|, limit) == AtLeastOne(|rows|)
    ensures if n == 1 then FirstPages(rows, limit, n) == rows else |FirstPages(rows, limit, n)| >= 2 * |rows|
  {
    WrapIsIdentity(|rows|);
    WrapIsIdentity(limit);
    if n == 1 {
      assert Shown(rows, limit, 1) == rows;
      assert FirstPages(rows, limit, 1) == [] + rows;
    } else {
      UnlimitedPages(rows, limit, n - 1);
      if n == 2 {
        assert Offset(2, limit) == limit;
        assert Shown(rows, limit, 2) == rows;
      }
    }
  }

  // The limits for which the pages of a log of this many rows show each of its rows once.
  predicate Tiling(total: nat, limit: int) {
    if limit >= 1 then total <= limit || total + limit - 1 < TWO63
    else if limit == 0 then total == 0
    else total <= 1
  }

  // Pages 1 to the last, one after the other, are the whole filtered log exactly when the
  // configured page size is one that tiles: any positive one short of overflow.
  lemma PagesTileTheLog<T>(rows: seq<T>, limit: int)
    requires |rows| < TWO63 && Int64(limit)
    ensures AllPages(rows, limit) == rows <==> Tiling(|rows|, limit)
  {
    var t := TotalPages(|rows|, limit);
    if limit >= 1 && |rows| + limit - 1 < TWO63 {
      FirstPagesArePrefix(rows, limit, t);
      CountsPages(|rows|, limit);
      assert rows[..|rows|] == rows;
      if t * limit < |rows| { assert false; }
    } else if limit >= 1 {
      OverflowGivesOnePage(|rows|, limit);
      assert Offset(1, limit) == 0;
      assert FirstPages(rows, limit, 1) == [] + Shown(rows, limit, 1);
      assert Shown(rows, limit, 1) == if limit > |rows| then rows else rows[..limit];
    } else if limit == 0 {
      EmptyPages(rows, t);
    } else {
      UnlimitedPages(rows, limit, t);
    }
  }

  // A page size of zero shows nothing of a log, and a negative one shows two rows at least twice.
  lemma BrokenPageSizes<T>(x: T, y: T)
    ensures AllPages([x], 0) == [] && |AllPages([x, y], -1)| >= 4
  {
    EmptyPages([x], TotalPages(1, 0));
    UnlimitedPages([x, y], -1, 1);
    UnlimitedPages([x, y], -1, 2);
  }

  // ---------- One request ----------

  method CountBackupRuns(t: RunTables, f: Filter) returns (count: nat)
    ensures count == |NewestFirst(t.runs, t.lastRun, f)|
  {
    count := Count(t.runs, t.lastRun, Where(f));
  }

  method ListBackupRuns(t: RunTables, limit: int, offset: int, f: Filter) returns (out: seq<(int, RunRow)>)
    ensures out == Page(NewestFirst(t.runs, t.lastRun, f), limit, offset)
  {
    out := List(t.runs, t.lastRun, Where(f), limit, offset);
  }

  // Count, clamp the page, list: with a positive limit and no overflow, a log that has any
  // matching run shows at least one, and a next page is offered exactly when older ones remain.
  method HandleLogs(t: RunTables, status: string, query: string, page: int, limit: int)
    returns (rows: seq<(int, RunRow)>, p: Pagination)
    requires Int64(page) && Int64(limit) && t.lastRun < TWO63
    ensures var all := NewestFirst(t.runs, t.lastRun, Filter(status == "error", query));
            && p.total == |all| && rows == Shown(all, limit, page)
            && (limit >= 1 && |all| + limit - 1 < TWO63 ==>
                  && (all != [] ==> rows != [])
                  && (p.hasNext <==> Offset(p.page, limit) + limit < |all|))
  {
    var f := Filter(status == "error", query);
    NoMoreThanInserted(t.runs, t.lastRun, Where(f));
    var total := CountBackupRuns(t, f);
    p := NewPagination(page, total, limit, "/logs");
    rows := ListBackupRuns(t, limit, Offset(p.page, limit), f);
    if limit >= 1 && total + limit - 1 < TWO63 {
      HasNextMeansMore(NewestFirst(t.runs, t.lastRun, f), limit, page);
    }
  }
}
