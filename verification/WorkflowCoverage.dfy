/**
  The coverage decision of `list_workflows` (agentbridge/adapters/seeyon_central.py): when a listing may
  call itself complete, and what a complete dated listing then contains.
  */
module WorkflowCoverage {
  import opened Options
  import opened PythonText
  import opened HistoryQuery
  import opened DateTexts

  datatype PublicItem = PublicItem(affairId: string, title: string, date: string)

  /** How texts are read, and whether an item contains the keyword. */
  datatype Texts = Texts(reading: Reading, matches: PublicItem -> bool)

  /** What a collection reader returns: rows, the source's total if it is an integer, its page, evidence. */
  datatype Parsed = Parsed(items: seq<Row>, total: Option<int>, page: int, evidence: Option<Outcome>)

  datatype Coverage = Coverage(
    complete: bool, hasMore: bool, truncated: bool, sourceExhausted: bool,
    unparsedDates: nat, basisExact: bool, matched: nat)

  function Public(x: Texts, row: Row): PublicItem
    requires row.Row?
  {
    PublicItem(row.affairId, Rendered(x.reading, row.title), Rendered(x.reading, row.date))
  }

  /** The public items of the rows that keep a title, in order. */
  function PublicItems(x: Texts, rows: seq<Row>): seq<PublicItem>
    requires forall row <- rows :: row.Row?
  {
    if rows == [] then []
    else (if Public(x, rows[0]).title != "" then [Public(x, rows[0])] else []) + PublicItems(x, rows[1..])
  }

  function Select(items: seq<PublicItem>, keep: PublicItem -> bool): seq<PublicItem> {
    if items == [] then []
    else (if keep(items[0]) then [items[0]] else []) + Select(items[1..], keep)
  }

  function InDates(x: Texts, q: Query): PublicItem -> bool {
    (item: PublicItem) =>
      ListingDay(x.reading, item.date).Some? && InRange(q, ListingDay(x.reading, item.date).value)
  }

  function Undated(x: Texts): PublicItem -> bool {
    (item: PublicItem) => ListingDay(x.reading, item.date).None?
  }

  predicate Dated(q: Query) {
    q.start.Some? || q.end.Some?
  }

  /** The rows `_read_history_page` passes on: objects whose id and title are not blank. */
  function PageRows(rows: seq<Row>): (page: seq<Row>)
    ensures forall row <- page :: row.Row?
  {
    if rows == [] then []
    else
      var row := rows[0];
      (if row.Row? && Strip(row.affairId) != "" && Strip(row.title) != ""
       then [row.(affairId := Strip(row.affairId), title := Strip(row.title))] else [])
      + PageRows(rows[1..])
  }

  /** Each public item of a page shows some row of the source. */
  predicate Shows(x: Texts, item: PublicItem, row: Row) {
    row.Row? && item.date == Rendered(x.reading, row.date) && item.affairId == Strip(row.affairId)
    && item.title == Rendered(x.reading, Strip(row.title)) != ""
  }

  lemma {:induction false} PublicItemsShowRows(x: Texts, rows: seq<Row>)
    ensures forall item <- PublicItems(x, PageRows(rows)) :: exists row <- rows :: Shows(x, item, row)
  {
    if rows != [] {
      var page := PageRows(rows);
      PublicItemsShowRows(x, rows[1..]);
      if |page| > |PageRows(rows[1..])| {
        assert page[1..] == PageRows(rows[1..]);
        forall item | item in PublicItems(x, page) ensures exists row <- rows :: Shows(x, item, row) {
          if item in PublicItems(x, page[1..]) {
            var row :| row in rows[1..] && Shows(x, item, row);
            assert row in rows;
          } else {
            assert Shows(x, item, rows[0]);
          }
        }
      } else {
        assert page == PageRows(rows[1..]);
        forall item | item in PublicItems(x, page) ensures exists row <- rows :: Shows(x, item, row) {
          var row :| row in rows[1..] && Shows(x, item, row);
          assert row in rows;
        }
      }
    }
  }

  /** The query reads dates as the code does. */
  ghost predicate ReadsDates(x: Texts, q: Query) {
    forall s :: q.parse(s) == QueryDay(x.reading, s)
  }

  /** The date shown starts with a date that no digit follows, or the first date after that is in range. */
  predicate Stays(x: Texts, q: Query, shown: string) {
    var later := StandaloneDay(x.reading, shown, 1);
    Leads(x.reading, shown) || (later.Some? && InRange(q, later.value))
  }

  /** Which items of rows that the query took are in range for the listing too. */
  lemma InDatesIffStays(x: Texts, q: Query, rows: seq<Row>, item: PublicItem)
    requires ReadsDates(x, q) && GoodRows(q, rows) && item in PublicItems(x, PageRows(rows))
    ensures InDates(x, q)(item) <==> Stays(x, q, item.date)
  {
    PublicItemsShowRows(x, rows);
    var row :| row in rows && Shows(x, item, row);
    assert GoodRow(q, row);
    ReadersAgreeOnLeadingDates(x.reading, row.date);
  }

  lemma {:induction false} SelectConcat(a: seq<PublicItem>, b: seq<PublicItem>, keep: PublicItem -> bool)
    ensures Select(a + b, keep) == Select(a, keep) + Select(b, keep)
  {
    if a == [] {
      assert a + b == b;
    } else {
      SelectConcat(a[1..], b, keep);
      assert (a + b)[1..] == a[1..] + b;
    }
  }

  lemma {:induction false} SelectedSatisfy(items: seq<PublicItem>, keep: PublicItem -> bool)
    ensures forall item <- Select(items, keep) :: keep(item) && item in items
  {
    if items != [] {
      SelectedSatisfy(items[1..], keep);
    }
  }

  lemma {:induction false} SelectHolds(items: seq<PublicItem>, keep: PublicItem -> bool, item: PublicItem)
    requires item in items && keep(item)
    ensures item in Select(items, keep)
  {
    if item != items[0] {
      SelectHolds(items[1..], keep, item);
    }
  }

  /**
    Filtering by date first loses nothing of a keyword selection exactly when every matching item's date
    is in range.
    */
  lemma {:induction false} FilteringFirst(
      items: seq<PublicItem>, dates: PublicItem -> bool, keep: PublicItem -> bool)
    ensures Select(Select(items, dates), keep) == Select(items, keep)
            <==> forall item <- Select(items, keep) :: dates(item)
    ensures |Select(Select(items, dates), keep)| <= |Select(items, keep)|
  {
    if items != [] {
      FilteringFirst(items[1..], dates, keep);
      var head, rest := items[0], items[1..];
      SelectedSatisfy(rest, keep);
      if dates(head) {
        assert Select(items, dates) == [head] + Select(rest, dates);
        assert ([head] + Select(rest, dates))[1..] == Select(rest, dates);
      } else {
        assert Select(items, dates) == Select(rest, dates);
        if keep(head) {
          assert head in Select(items, keep);
        }
      }
      if keep(head) {
        assert Select(items, keep) == [head] + Select(rest, keep);
        assert Select(items, keep)[1..] == Select(rest, keep);
        if dates(head) {
          assert Select(Select(items, dates), keep) == [head] + Select(Select(rest, dates), keep);
        }
      } else {
        assert Select(items, keep) == Select(rest, keep);
      }
    }
  }

  /** The date loop: items in range, and how many had no date. */
  method FilterDates(x: Texts, q: Query, items: seq<PublicItem>) returns (kept: seq<PublicItem>, unparsed: nat)
    ensures kept == Select(items, InDates(x, q))
    ensures unparsed == |Select(items, Undated(x))|
  {
    kept, unparsed := [], 0;
    for i := 0 to |items|
      invariant kept == Select(items[..i], InDates(x, q))
      invariant unparsed == |Select(items[..i], Undated(x))|
    {
      assert items[..i + 1] == items[..i] + [items[i]];
      SelectConcat(items[..i], [items[i]], InDates(x, q));
      SelectConcat(items[..i], [items[i]], Undated(x));
      var day := ListingDay(x.reading, items[i].date);
      if day.None? {
        unparsed := unparsed + 1;
      } else if q.start.Some? && day.value < q.start.value {
      } else if q.end.Some? && day.value > q.end.value {
      } else {
        kept := kept + [items[i]];
      }
    }
    assert items[..|items|] == items;
  }

  /**
    The listing.  A complete one has no more to show, was not cut by the limit, has no undated row in a
    dated query, and consists of all rows in range that match; it is complete only if the source was
    exhausted.
    */
  method ListWorkflows(x: Texts, q: Query, parsed: Parsed, limit: nat) returns (items: seq<PublicItem>, c: Coverage)
    requires limit >= 1 && forall row <- parsed.items :: row.Row?
    ensures var dated := if Dated(q) then Select(PublicItems(x, parsed.items), InDates(x, q))
                         else PublicItems(x, parsed.items);
            var matching := Select(dated, x.matches);
            && items == matching[.. if limit < |matching| then limit else |matching|]
            && c.matched == |matching|
            && (c.complete ==> items == matching)
            && (c.truncated <==> |matching| > limit)
    ensures c.sourceExhausted <==>
              if parsed.evidence.Some? then parsed.evidence.value.Complete()
              else parsed.total == Some(|PublicItems(x, parsed.items)|) && parsed.page == 1
    ensures c.complete <==>
              && c.sourceExhausted && !c.truncated
              && (Dated(q) ==> Select(PublicItems(x, parsed.items), Undated(x)) == []
                               && forall row <- parsed.items :: row.dateBasis == q.dateBasis)
    ensures c.complete ==> !c.hasMore && (Dated(q) ==> c.unparsedDates == 0)
  {
    c := Coverage(false, false, false, false, 0, false, 0);
    var basisExact := forall row <- parsed.items :: row.dateBasis == q.dateBasis;
    items := PublicItems(x, parsed.items);
    var sourceCount := |items|;
    var unparsed := 0;
    if Dated(q) {
      items, unparsed := FilterDates(x, q, items);
    }
    items := Select(items, x.matches);
    var matched := |items|;
    items := items[.. if limit < |items| then limit else |items|];
    var truncated := matched > |items|;
    var exhausted := parsed.total == Some(sourceCount) && parsed.page == 1;
    if parsed.evidence.Some? {
      exhausted := parsed.evidence.value.Complete();
    }
    var datesProven := !Dated(q) || (unparsed == 0 && basisExact);
    var complete := datesProven && exhausted && !truncated;
    var hasMore := truncated
                   || (!complete && !exhausted && (parsed.total.None? || parsed.total.value > sourceCount));
    c := Coverage(complete, hasMore, truncated, exhausted, unparsed, basisExact, matched);
  }

  /** The row with this id, title and date, where nothing is to be trimmed or rendered. */
  lemma PlainRow(x: Texts, row: Row)
    requires row.Row? && Rendered(x.reading, row.date) == row.date
    requires row.affairId != "" && Plain(row.affairId) && row.title != "" && Plain(row.title)
    ensures PublicItems(x, PageRows([row])) == [PublicItem(row.affairId, row.title, row.date)]
  {
    StripTrimmed(row.affairId);
    StripTrimmed(row.title);
    assert row.title[..|row.title|] == row.title;
    RenderingKeepsLead(x.reading, row.title, |row.title|);
    assert PageRows([row]) == [row];
    assert PublicItems(x, [row]) == [Public(x, row)];
  }

  /**
    A row whose date is followed by a digit and then by another day's date.  The query proves it to be in
    range, and the listing drops it as being of the other day, without counting it as undated.
    */
  lemma DigitAfterDateLosesARow(x: Texts, q: Query, row: Row, lead: string, digit: char, tail: string)
    requires |lead| == 10 && DateAt(map[], lead, 0) && IsDigit(digit) && |tail| == 10 && DateAt(map[], tail, 0)
    requires row.Row? && row.date == lead + [digit, '/'] + tail && row.dateBasis == q.dateBasis
    requires row.affairId != "" && Plain(row.affairId) && row.title != "" && Plain(row.title)
    requires ReadsDates(x, q) && DayAt(map[], lead, 0).Some? && InRange(q, DayAt(map[], lead, 0).value)
    requires DayAt(map[], tail, 0).Some? && !InRange(q, DayAt(map[], tail, 0).value)
    ensures GoodRows(q, [row])
    ensures PublicItems(x, PageRows([row])) == [PublicItem(row.affairId, row.title, row.date)]
    ensures Select(PublicItems(x, PageRows([row])), InDates(x, q)) == []
    ensures Select(PublicItems(x, PageRows([row])), Undated(x)) == []
  {
    ReadersDisagree(x.reading, lead, digit, tail);
    PlainRow(x, row);
  }

  /** Such a row. */
  lemma DisagreeingReadsLoseARow(x: Texts) returns (q: Query, row: Row)
    ensures row == Row("7", "Leave", "2024-01-051/2023-02-03", "processed_at")
    ensures ReadsDates(x, q) && GoodRows(q, [row])
    ensures |PublicItems(x, PageRows([row]))| == 1
    ensures Select(PublicItems(x, PageRows([row])), InDates(x, q)) == []
    ensures Select(PublicItems(x, PageRows([row])), Undated(x)) == []
  {
    q := Query("processed_at", Some(20240105), Some(20240105), s => QueryDay(x.reading, s));
    row := Row("7", "Leave", "2024-01-051/2023-02-03", "processed_at");
    var lead, tail := "2024-01-05", "2023-02-03";
    DigitAfterDateLosesARow(x, q, row, lead, '1', tail);
  }

  /**
    A dated sent or done query, end to end: paged read, page rows, listing.  When the listing calls itself
    complete, the server's list was read to the end and every row of it with an id and a title that
    renders is accounted for; the items are exactly the matching ones, in order, if and only if the date
    shown of each of them starts with a date that no digit follows, or is followed by one in the range.
    */
  method ListDatedWorkflows(server: nat -> Reply, outOfTime: nat -> bool, x: Texts, q: Query, limit: nat)
    returns (read: Outcome, items: seq<PublicItem>, c: Coverage)
    requires limit >= 1 && Dated(q) && ReadsDates(x, q)
    ensures read.Outcome? || !c.complete
    ensures c.complete ==> read.Complete() && read.items == Rows(server, read.pagesFetched) && GoodRows(q, read.items)
    ensures c.complete ==> !c.hasMore && c.unparsedDates == 0 && !c.truncated
    ensures c.complete ==>
              var all := Select(PublicItems(x, PageRows(read.items)), x.matches);
              items == all <==> forall item <- all :: Stays(x, q, item.date)
  {
    read := ReadFilteredHistory(server, outOfTime, q, [], 0);
    if read.Raised? {
      return read, [], Coverage(false, false, false, false, 0, false, 0);
    }
    var total: Option<int> := if read.total.Some? then Some(read.total.value) else None;
    items, c := ListWorkflows(x, q, Parsed(PageRows(read.items), total, 1, Some(read)), limit);
    var public := PublicItems(x, PageRows(read.items));
    FilteringFirst(public, InDates(x, q), x.matches);
    if c.complete {
      SelectedSatisfy(public, x.matches);
      forall item | item in Select(public, x.matches) ensures InDates(x, q)(item) <==> Stays(x, q, item.date) {
        InDatesIffStays(x, q, read.items, item);
      }
    }
  }
}
