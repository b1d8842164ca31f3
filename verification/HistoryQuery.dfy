/**
  The paged history query of agentbridge/adapters/seeyon_history_query.py.  The server is any function
  from page numbers to replies; time may run out before any page.
  */
module HistoryQuery {
  import opened Options

  const PAGE_SIZE := 50
  const MAX_PAGES := 20 // 1000 rows at 50 a page

  type Day = int

  /** One element of the payload's `items`; `NoRow` is anything that is not an object. */
  datatype Row = NoRow | Row(affairId: string, title: string, date: string, dateBasis: string)

  /** A JSON value where the code expects a count. */
  datatype Field = Int(i: int) | OtherValue

  datatype Reply =
    | Fails // the page evaluation raised
    | NoObject
    | Reply(total: Field, pages: Field, page: Field, size: Field, items: Option<seq<Row>>)

  datatype Reason =
    | Exhausted | ScanBudgetReached | TimeBudgetReached | PageFailed | MetadataInvalid
    | ChangedDuringPagination | PageSizeMismatch | RowInvalid | DuplicateRows | DateUnproven | FilterNotHonored

  datatype Query = Query(dateBasis: string, start: Option<Day>, end: Option<Day>, parse: string -> Option<Day>)

  datatype Outcome =
    | Raised
    | Outcome(items: seq<Row>, total: Option<nat>, pages: Option<nat>, pagesFetched: nat, reason: Reason)
  {
    predicate Complete() {
      Outcome? && reason == Exhausted
    }
  }

  function NonNegative(f: Field): Option<nat> {
    if f.Int? && f.i >= 0 then Some(f.i) else None
  }

  predicate InRange(q: Query, day: Day) {
    !(q.start.Some? && day < q.start.value) && !(q.end.Some? && day > q.end.value)
  }

  /** Why a row is not taken, given the ids already seen; `Exhausted` stands for "no reason". */
  function Refusal(q: Query, seen: set<string>, row: Row): Reason {
    if row.NoRow? || row.affairId == "" || row.title == "" then RowInvalid
    else if row.affairId in seen then DuplicateRows
    else if q.parse(row.date).None? || row.dateBasis != q.dateBasis then DateUnproven
    else if !InRange(q, q.parse(row.date).value) then FilterNotHonored
    else Exhausted
  }

  /** A row with an id, a title, the promised date basis and a date in the range asked for. */
  predicate GoodRow(q: Query, row: Row) {
    Refusal(q, {}, row) == Exhausted
  }

  function Ids(rows: seq<Row>): set<string> {
    set row | row in rows && row.Row? :: row.affairId
  }

  predicate DistinctIds(rows: seq<Row>) {
    forall i, j :: 0 <= i < j < |rows| && rows[i].Row? && rows[j].Row? ==> rows[i].affairId != rows[j].affairId
  }

  predicate GoodRows(q: Query, rows: seq<Row>) {
    DistinctIds(rows) && forall row <- rows :: GoodRow(q, row)
  }

  // ----- What the pages say -----

  function PagesFor(total: nat): nat {
    (total + PAGE_SIZE - 1) / PAGE_SIZE
  }

  function RowsOn(total: nat, page: nat): nat
    requires page >= 1
  {
    var left := total - (page - 1) * PAGE_SIZE;
    if left < 0 then 0 else if left < PAGE_SIZE then left else PAGE_SIZE
  }

  /** The reply is a full page `page` of a list of `total` rows in `pages` pages. */
  predicate PageOf(r: Reply, page: nat, total: nat, pages: nat)
    requires page >= 1
  {
    && r.Reply? && r.total == Int(total) && r.pages == Int(pages) && r.page == Int(page) && r.size == Int(PAGE_SIZE)
    && (if total == 0 then pages <= 1 else pages == PagesFor(total))
    && r.items.Some? && |r.items.value| == RowsOn(total, page)
  }

  /** The rows of pages 1..n in order. */
  function Rows(server: nat -> Reply, n: nat): seq<Row> {
    if n == 0 then []
    else Rows(server, n - 1) + if server(n).Reply? && server(n).items.Some? then server(n).items.value else []
  }

  /** An honest server: a stable list of good rows, served in true slices. */
  ghost predicate Serves(server: nat -> Reply, rows: seq<Row>, pages: nat) {
    forall p: nat | p >= 1 ::
      PageOf(server(p), p, |rows|, pages)
      && server(p).items.value == Slice(rows, p)
  }

  function Slice(rows: seq<Row>, page: nat): seq<Row>
    requires page >= 1
  {
    var from := if (page - 1) * PAGE_SIZE < |rows| then (page - 1) * PAGE_SIZE else |rows|;
    rows[from .. from + RowsOn(|rows|, page)]
  }

  lemma {:induction false} ServedRows(server: nat -> Reply, rows: seq<Row>, pages: nat, n: nat)
    requires Serves(server, rows, pages)
    ensures Rows(server, n) == rows[.. if n * PAGE_SIZE < |rows| then n * PAGE_SIZE else |rows|]
  {
    if n > 0 {
      ServedRows(server, rows, pages, n - 1);
      assert PageOf(server(n), n, |rows|, pages);
    }
  }

  lemma {:induction false} RowsLength(server: nat -> Reply, n: nat, total: nat, pages: nat)
    requires forall p: nat | 1 <= p <= n :: PageOf(server(p), p, total, pages)
    ensures |Rows(server, n)| == if n * PAGE_SIZE < total then n * PAGE_SIZE else total
  {
    if n > 0 {
      RowsLength(server, n - 1, total, pages);
    }
  }

  lemma PagesCover(total: nat, n: nat)
    ensures n >= PagesFor(total) <==> n * PAGE_SIZE >= total
  {
  }

  lemma PrefixIsGood(q: Query, rows: seq<Row>, n: nat)
    requires GoodRows(q, rows) && n <= |rows|
    ensures GoodRows(q, rows[..n])
  {
  }

  /** The list fits the scan budget, is honestly served, and there is time to read it. */
  ghost predicate Answerable(server: nat -> Reply, outOfTime: nat -> bool, q: Query, list: seq<Row>, pages: nat) {
    && Serves(server, list, pages) && |list| <= MAX_PAGES * PAGE_SIZE
    && GoodRows(q, list) && forall p: nat :: !outOfTime(p)
  }

  /** A row is refused exactly when taking it would spoil the rows already taken. */
  lemma RefusalIsExact(q: Query, taken: seq<Row>, row: Row)
    requires GoodRows(q, taken)
    ensures Refusal(q, Ids(taken), row) == Exhausted <==> GoodRows(q, taken + [row])
  {
    var longer := taken + [row];
    assert longer[|taken|] == row;
    if Refusal(q, Ids(taken), row) == Exhausted {
      forall i, j | 0 <= i < j < |longer| && longer[i].Row? && longer[j].Row?
        ensures longer[i].affairId != longer[j].affairId
      {
        assert longer[i] == taken[i] && taken[i] in taken;
      }
    } else if GoodRows(q, longer) {
      assert GoodRow(q, row);
      forall k | 0 <= k < |taken| && taken[k].Row? ensures taken[k].affairId != longer[|taken|].affairId {
        assert longer[k] == taken[k];
      }
    }
  }

  lemma AnswerablePage(server: nat -> Reply, outOfTime: nat -> bool, q: Query, list: seq<Row>, pages: nat, page: nat)
    requires Answerable(server, outOfTime, q, list, pages) && page >= 1
    ensures !outOfTime(page) && PageOf(server(page), page, |list|, pages)
    ensures GoodRows(q, Rows(server, page - 1) + server(page).items.value)
  {
    assert PageOf(server(page), page, |list|, pages);
    ServedRows(server, list, pages, page);
    PrefixIsGood(q, list, |Rows(server, page)|);
    assert Rows(server, page) == list[..|Rows(server, page)|];
  }

  // ----- The code -----

  /** The rows taken after `items`: each that is not refused by then, in order. */
  function Admitted(q: Query, items: seq<Row>, rows: seq<Row>): seq<Row> {
    if rows == [] then items
    else
      var before, last := Admitted(q, items, rows[..|rows| - 1]), rows[|rows| - 1];
      if Refusal(q, Ids(before), last) == Exhausted then before + [last] else before
  }

  /**
    The rows of one page, one by one.  The new items are good, distinct and in order; the page is
    unobjectionable exactly when all its rows were taken.
    */
  method TakeRows(q: Query, items: seq<Row>, rows: seq<Row>) returns (taken: seq<Row>, why: Reason)
    requires GoodRows(q, items)
    ensures GoodRows(q, taken) && taken == Admitted(q, items, rows)
    ensures why == Exhausted <==> GoodRows(q, items + rows)
    ensures why == Exhausted ==> taken == items + rows
    ensures why != ScanBudgetReached && why != TimeBudgetReached
  {
    taken, why := items, Exhausted;
    var seen := Ids(items);
    for i := 0 to |rows|
      invariant GoodRows(q, taken) && taken == Admitted(q, items, rows[..i]) && seen == Ids(taken)
      invariant Judged(q, items + rows[..i], taken, why)
    {
      var refusal := Refusal(q, seen, rows[i]);
      assert rows[..i + 1][..i] == rows[..i];
      assert items + rows[..i + 1] == (items + rows[..i]) + [rows[i]];
      JudgesOne(q, items + rows[..i], taken, why, rows[i]);
      if refusal != Exhausted {
        why := refusal;
      } else {
        assert Ids(taken + [rows[i]]) == seen + {rows[i].affairId};
        seen := seen + {rows[i].affairId};
        taken := taken + [rows[i]];
      }
    }
    assert rows[..|rows|] == rows;
  }

  /** Of `rows`, those in `taken` were taken, and there is no reason against them exactly when that was all. */
  predicate Judged(q: Query, rows: seq<Row>, taken: seq<Row>, why: Reason) {
    && (why == Exhausted <==> GoodRows(q, rows))
    && (why == Exhausted ==> taken == rows)
    && why != ScanBudgetReached && why != TimeBudgetReached
  }

  lemma JudgesOne(q: Query, rows: seq<Row>, taken: seq<Row>, why: Reason, row: Row)
    requires GoodRows(q, taken) && Judged(q, rows, taken, why)
    ensures var refusal := Refusal(q, Ids(taken), row);
            if refusal == Exhausted then GoodRows(q, taken + [row]) && Judged(q, rows + [row], taken + [row], why)
            else Judged(q, rows + [row], taken, refusal)
  {
    RefusalIsExact(q, taken, row);
    if GoodRows(q, rows + [row]) {
      PrefixIsGood(q, rows + [row], |rows|);
      assert (rows + [row])[..|rows|] == rows;
    }
  }

  function MetadataError(r: Reply, page: nat, total: Option<nat>, pages: Option<nat>): Reason
    requires page >= 1 && (total.Some? <==> pages.Some?)
  {
    if !r.Reply? then MetadataInvalid else
    var t, ps := NonNegative(r.total), NonNegative(r.pages);
    if t.None? || ps.None? || NonNegative(r.page) != Some(page) || NonNegative(r.size) != Some(PAGE_SIZE)
       || r.items.None? || (t.value == 0 && (ps.value > 1 || r.items.value != []))
       || (t.value > 0 && ps.value != PagesFor(t.value)) then MetadataInvalid
    else if total.Some? && (total != t || pages != ps) then ChangedDuringPagination
    else if |r.items.value| != RowsOn(t.value, page) then PageSizeMismatch
    else Exhausted
  }

  /**
    One page that did not raise: `why` is `Exhausted` exactly when the reply is a full page of the list
    the earlier pages belong to and all its rows are good and new.
    */
  method ReadPage(reply: Reply, page: nat, q: Query, items: seq<Row>, total: Option<nat>, pages: Option<nat>)
    returns (items': seq<Row>, total': Option<nat>, pages': Option<nat>, counted: bool, why: Reason)
    requires page >= 1 && GoodRows(q, items) && (total.Some? <==> pages.Some?)
    ensures GoodRows(q, items') && (total'.Some? <==> pages'.Some?)
    ensures total.Some? ==> total' == total && pages' == pages
    ensures counted <==> total'.Some? && PageOf(reply, page, total'.value, pages'.value)
    ensures forall t: nat, ps: nat
              | PageOf(reply, page, t, ps) && (total.None? || (total == Some(t) && pages == Some(ps))) ::
              counted && total' == Some(t) && pages' == Some(ps)
    ensures why == Exhausted <==> counted && GoodRows(q, items + reply.items.value)
    ensures why == Exhausted ==> items' == items + reply.items.value
    ensures why != ScanBudgetReached && why != TimeBudgetReached
  {
    items', total', pages', counted := items, total, pages, false;
    why := MetadataError(reply, page, total, pages);
    if why == MetadataInvalid { return; }
    if total.None? {
      total', pages' := NonNegative(reply.total), NonNegative(reply.pages);
    }
    if why != Exhausted { return; }
    counted := true;
    items', why := TakeRows(q, items, reply.items.value);
  }

  /** The page loop. */
  method ReadPages(server: nat -> Reply, outOfTime: nat -> bool, q: Query, ghost list: seq<Row>, ghost listPages: nat)
    returns (items: seq<Row>, total: Option<nat>, pages: Option<nat>, fetched: nat, reason: Reason, raised: bool)
    ensures raised <==> !outOfTime(1) && server(1).Fails?
    ensures GoodRows(q, items)
    ensures fetched > 0 ==> total.Some? && pages.Some?
    ensures forall p: nat | 1 <= p <= fetched :: PageOf(server(p), p, total.value, pages.value)
    ensures !raised && reason == Exhausted ==>
              && 1 <= fetched <= MAX_PAGES && total.Some? && pages.Some?
              && items == Rows(server, fetched) && |items| == total.value
              && fetched >= pages.value && (fetched > 1 ==> fetched - 1 < pages.value)
    ensures Answerable(server, outOfTime, q, list, listPages) ==>
              !raised && reason == Exhausted
  {
    items, total, pages, fetched, reason, raised := [], None, None, 0, ScanBudgetReached, false;
    var page := 1;
    var stop := false;
    ghost var answerable := Answerable(server, outOfTime, q, list, listPages);
    while page <= MAX_PAGES && !stop
      invariant 1 <= page <= MAX_PAGES + 1
      invariant total.Some? <==> pages.Some?
      invariant fetched > 0 ==> total.Some?
      invariant stop ==> page <= MAX_PAGES
      invariant !stop && fetched == 0 ==> total.None?
      invariant !stop ==> fetched == page - 1 && reason == ScanBudgetReached
      invariant GoodRows(q, items)
      invariant forall p: nat | 1 <= p <= fetched ::
                  total.Some? && pages.Some? && PageOf(server(p), p, total.value, pages.value)
      invariant stop || page > 1 ==> outOfTime(1) || !server(1).Fails?
      invariant !stop ==> items == Rows(server, fetched)
      invariant answerable && stop ==> reason == Exhausted
      invariant !stop && fetched > 0 ==> fetched < pages.value
      invariant answerable && fetched > 0 ==> total == Some(|list|) && pages == Some(listPages)
      invariant stop && reason == Exhausted ==>
                  && items == Rows(server, fetched) && fetched >= 1 && page == fetched
                  && |items| == total.value && fetched >= pages.value
                  && (fetched > 1 ==> fetched - 1 < pages.value)
      decreases MAX_PAGES - page, !stop
    {
      if answerable {
        AnswerablePage(server, outOfTime, q, list, listPages, page);
      }
      if outOfTime(page) {
        reason, stop := TimeBudgetReached, true;
      } else if server(page).Fails? {
        if fetched == 0 {
          raised := true;
          return;
        }
        reason, stop := PageFailed, true;
      } else {
        var counted, why;
        items, total, pages, counted, why := ReadPage(server(page), page, q, items, total, pages);
        if counted {
          fetched := fetched + 1;
          RowsLength(server, fetched, total.value, pages.value);
          PagesCover(total.value, fetched);
        }
        if why != Exhausted {
          reason, stop := why, true;
        } else if |items| == total.value && page >= pages.value {
          reason, stop := Exhausted, true;
        } else {
          page := page + 1;
        }
      }
    }
    PagesCover(|list|, MAX_PAGES);
  }

  /**
    Against any server: what is returned is good rows with distinct ids, and "exhausted" means that
    pages 1..pagesFetched were all read, all agree on one total and page count, and `items` are
    exactly their rows in order, numbering that total.  Against an honest server whose list fits the
    budget, and with time left, the result is complete and is the list.
    */
  method ReadFilteredHistory(server: nat -> Reply, outOfTime: nat -> bool, q: Query,
                             ghost list: seq<Row>, ghost listPages: nat) returns (r: Outcome)
    ensures r.Raised? <==> !outOfTime(1) && server(1).Fails?
    ensures r.Outcome? ==>
              && GoodRows(q, r.items)
              && (r.pagesFetched > 0 ==> r.total.Some? && r.pages.Some?)
              && (forall p: nat | 1 <= p <= r.pagesFetched :: PageOf(server(p), p, r.total.value, r.pages.value))
    ensures r.Complete() ==>
              && r.total.Some? && r.pages.Some?
              && r.items == Rows(server, r.pagesFetched) && |r.items| == r.total.value
              && r.pagesFetched == (if r.pages.value == 0 then 1 else r.pages.value)
              && r.total.value <= MAX_PAGES * PAGE_SIZE
    ensures Serves(server, list, listPages) && |list| > MAX_PAGES * PAGE_SIZE ==> !r.Complete()
    ensures Answerable(server, outOfTime, q, list, listPages) ==> r.Complete() && r.items == list
  {
    var items, total, pages, fetched, reason, raised := ReadPages(server, outOfTime, q, list, listPages);
    if raised {
      return Raised;
    }
    if reason == Exhausted {
      RowsLength(server, fetched, total.value, pages.value);
      if Serves(server, list, listPages) {
        ServedRows(server, list, listPages, fetched);
        assert PageOf(server(1), 1, |list|, listPages);
      }
    }
    r := Outcome(items, total, pages, fetched, reason);
  }
}
