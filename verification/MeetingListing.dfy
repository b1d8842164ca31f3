/** The paged listing of the user's own meeting-room applications (agentbridge/adapters/seeyon_meeting_room.py). */
module MeetingListing {
  import opened Options

  const MAX_PAGES: nat := 20

  /** An application as OA lists it; `id` is its identifier as text, before any stripping. */
  datatype Row = Row(id: string, status: string, usage: string, linked: bool, room: string, rest: string)

  /** A page as the server answers it, or any error in reading it. */
  datatype Payload = Failure | Page(rows: seq<Row>, total: Option<int>, pages: Option<int>)

  datatype Listing = Listing(items: seq<Row>, total: Option<int>, complete: bool)

  /** A server answers every page as it likes. */
  type Server = nat -> Payload

  // ----- What is loaded -----

  function RowsThrough(serve: Server, page: nat): seq<Row> {
    if page == 0 then []
    else RowsThrough(serve, page - 1) + RowsOn(serve, page)
  }

  /** Nothing more is expected after this page. */
  predicate Stops(serve: Server, page: nat, loaded: nat)
    requires serve(page).Page?
  {
    || serve(page).rows == []
    || (serve(page).pages.Some? && page >= serve(page).pages.value)
    || (serve(page).total.Some? && loaded >= serve(page).total.value)
  }

  function RowsOn(serve: Server, page: nat): seq<Row> {
    if serve(page).Page? then serve(page).rows else []
  }

  /**
    The last page asked for, when `before` rows are loaded and `page` is next: the first page that fails,
    that stops, or that reaches a bound.
    */
  function LastPage(serve: Server, page: nat, before: nat, maximum: nat): (last: nat)
    requires 1 <= page <= MAX_PAGES
    ensures page <= last <= MAX_PAGES
    decreases MAX_PAGES - page, before
  {
    var loaded := before + |RowsOn(serve, page)|;
    if !serve(page).Page? || Stops(serve, page, loaded) || page == MAX_PAGES || loaded >= maximum then page
    else LastPage(serve, page + 1, loaded, maximum)
  }

  /** Every page that named a total named this one. */
  predicate Agree(serve: Server, last: nat, total: int) {
    forall page :: 1 <= page <= last && serve(page).Page? && serve(page).total.Some? ==>
      serve(page).total.value == total
  }

  predicate DistinctIds(rows: seq<Row>) {
    (forall k :: 0 <= k < |rows| ==> rows[k].id != "") && NoRepeats(rows)
  }

  predicate Complete(serve: Server, last: nat, maximum: nat)
    requires serve(last).Page?
  {
    var rows := RowsThrough(serve, last);
    && serve(last).total.Some?
    && Agree(serve, last, serve(last).total.value)
    && serve(last).total.value == |rows|
    && DistinctIds(rows)
    && |rows| <= maximum
  }

  function Clamp(maximum: int): nat {
    if maximum < 1 then 1 else if maximum > 4000 then 4000 else maximum
  }

  function ListingOf(serve: Server, maximumItems: int): Option<Listing> {
    var maximum := Clamp(maximumItems);
    var last := LastPage(serve, 1, 0, maximum);
    if !serve(last).Page? then None
    else
      var rows := RowsThrough(serve, last);
      Some(Listing(
             if |rows| <= maximum then rows else rows[..maximum], serve(last).total, Complete(serve, last, maximum)))
  }

  // ----- The loop -----

  function Ids(rows: seq<Row>): set<string> {
    if rows == [] then {} else Ids(rows[..|rows| - 1]) + {rows[|rows| - 1].id}
  }

  lemma {:induction false} IdIsThere(rows: seq<Row>, id: string)
    ensures id in Ids(rows) <==> exists k :: 0 <= k < |rows| && rows[k].id == id
  {
    if rows != [] {
      IdIsThere(rows[..|rows| - 1], id);
    }
  }

  predicate NoRepeats(rows: seq<Row>) {
    forall j, k :: 0 <= j < k < |rows| ==> rows[j].id != rows[k].id
  }

  lemma {:induction false} IdsCount(rows: seq<Row>)
    ensures |Ids(rows)| <= |rows|
    ensures |Ids(rows)| == |rows| <==> NoRepeats(rows)
  {
    if rows != [] {
      var front, last := rows[..|rows| - 1], rows[|rows| - 1];
      IdsCount(front);
      IdIsThere(front, last.id);
      assert NoRepeats(rows) <==> NoRepeats(front) && last.id !in Ids(front);
      if last.id in Ids(front) {
        assert Ids(rows) == Ids(front);
      }
    }
  }

  /** Before `page` is asked for. */
  predicate Underway(serve: Server, maximum: nat, page: nat, rows: seq<Row>, totals: set<int>) {
    && 1 <= page <= MAX_PAGES
    && rows == RowsThrough(serve, page - 1)
    && totals == TotalsThrough(serve, page - 1)
    && LastPage(serve, 1, 0, maximum) == LastPage(serve, page, |rows|, maximum)
  }

  /** After the last page. */
  predicate Loaded(serve: Server, maximum: nat, rows: seq<Row>, total: Option<int>, totals: set<int>) {
    var last := LastPage(serve, 1, 0, maximum);
    && serve(last).Page?
    && rows == RowsThrough(serve, last)
    && total == serve(last).total
    && totals == TotalsThrough(serve, last)
  }

  lemma OnePage(serve: Server, maximum: nat, page: nat, rows: seq<Row>, totals: set<int>)
    requires Underway(serve, maximum, page, rows, totals) && serve(page).Page?
    ensures var loaded := rows + serve(page).rows;
            var named := totals + (if serve(page).total.Some? then {serve(page).total.value} else {});
            if Stops(serve, page, |loaded|) || page == MAX_PAGES || |loaded| >= maximum
            then Loaded(serve, maximum, loaded, serve(page).total, named)
            else Underway(serve, maximum, page + 1, loaded, named)
  {
  }

  method LoadPages(serve: Server, maximum: nat)
    returns (loaded: bool, rows: seq<Row>, total: Option<int>, totals: set<int>)
    requires maximum >= 1
    ensures loaded == serve(LastPage(serve, 1, 0, maximum)).Page?
    ensures loaded ==> Loaded(serve, maximum, rows, total, totals)
  {
    loaded, rows, total, totals := true, [], None, {};
    var page: nat := 1;
    var going := true;
    while going && page <= MAX_PAGES && |rows| < maximum
      invariant 1 <= page <= MAX_PAGES + 1
      invariant if going && page <= MAX_PAGES && |rows| < maximum then Underway(serve, maximum, page, rows, totals)
                else Loaded(serve, maximum, rows, total, totals)
      decreases MAX_PAGES + 1 - page, going
    {
      var payload := serve(page);
      if payload.Failure? {
        loaded := false;
        return;
      }
      OnePage(serve, maximum, page, rows, totals);
      rows := rows + payload.rows;
      total := payload.total;
      totals := totals + if total.Some? then {total.value} else {};
      if payload.rows == [] || (payload.pages.Some? && page >= payload.pages.value)
         || (total.Some? && |rows| >= total.value)
      {
        going := false;
      } else {
        page := page + 1;
      }
    }
  }

  lemma CompletenessIsJudged(serve: Server, maximum: nat, rows: seq<Row>, total: Option<int>, totals: set<int>)
    requires Loaded(serve, maximum, rows, total, totals)
    ensures (&& total.Some? && |totals| == 1 && total.value == |rows| == |Ids(rows)|
             && (forall k :: 0 <= k < |rows| ==> rows[k].id != "") && |rows| <= maximum)
            <==> Complete(serve, LastPage(serve, 1, 0, maximum), maximum)
  {
    TotalsAgree(serve, LastPage(serve, 1, 0, maximum));
    IdsCount(rows);
  }

  method QueryMyApplications(serve: Server, maximumItems: int) returns (listing: Option<Listing>)
    ensures listing == ListingOf(serve, maximumItems)
  {
    var maximum := Clamp(maximumItems);
    var loaded, rows, total, totals := LoadPages(serve, maximum);
    listing := None;
    if loaded {
      CompletenessIsJudged(serve, maximum, rows, total, totals);
      var named := forall k :: 0 <= k < |rows| ==> rows[k].id != "";
      var complete :=
        total.Some? && |totals| == 1 && total.value == |rows| == |Ids(rows)| && named && |rows| <= maximum;
      listing := Some(Listing(if |rows| <= maximum then rows else rows[..maximum], total, complete));
    }
  }

  function TotalsThrough(serve: Server, page: nat): set<int> {
    if page == 0 then {}
    else
      TotalsThrough(serve, page - 1)
      + (if serve(page).Page? && serve(page).total.Some? then {serve(page).total.value} else {})
  }

  lemma {:induction false} TotalsAreThose(serve: Server, page: nat, total: int)
    ensures total in TotalsThrough(serve, page) <==>
              exists p :: 1 <= p <= page && serve(p).Page? && serve(p).total == Some(total)
  {
    if page > 0 {
      TotalsAreThose(serve, page - 1, total);
    }
  }

  lemma TotalsAgree(serve: Server, last: nat)
    requires last >= 1 && serve(last).Page?
    ensures serve(last).total.Some? ==>
              (|TotalsThrough(serve, last)| == 1 <==> Agree(serve, last, serve(last).total.value))
  {
    if serve(last).total.Some? {
      var total, totals := serve(last).total.value, TotalsThrough(serve, last);
      TotalsAreThose(serve, last, total);
      forall page | 1 <= page <= last && serve(page).Page? && serve(page).total.Some?
        ensures serve(page).total.value in totals
      {
        TotalsAreThose(serve, last, serve(page).total.value);
      }
      assert totals - {total} == {} <==> |totals| == 1 by {
        assert totals == {total} + (totals - {total});
      }
      forall t | t in totals ensures Agree(serve, last, total) ==> t == total {
        TotalsAreThose(serve, last, t);
      }
      assert Agree(serve, last, total) <==> totals - {total} == {} by {
        if totals - {total} == {} {
          forall page | 1 <= page <= last && serve(page).Page? && serve(page).total.Some?
            ensures serve(page).total.value == total
          {
            assert serve(page).total.value !in totals - {total};
          }
        }
      }
    }
  }

  // ----- Completeness against an honest server -----

  /** How many of `n` rows the first `pages` pages hold. */
  function Reach(pages: nat, size: nat, n: nat): (reach: nat)
    ensures reach <= n
  {
    if pages * size < n then pages * size else n
  }

  lemma ReachGrows(page: nat, size: nat, n: nat)
    requires page >= 1
    ensures Reach(page - 1, size, n) <= Reach(page, size, n)
  {
    assert page * size == (page - 1) * size + size;
  }

  /** The page of an honest server: a true slice of the list, with its length. */
  predicate HonestPage(payload: Payload, list: seq<Row>, low: nat, high: nat, page: nat) {
    && low <= high <= |list|
    && payload.Page?
    && payload.rows == list[low..high]
    && payload.total == Some(|list|)
    && (payload.pages.Some? && page >= payload.pages.value ==> high == |list|)
  }

  /** The server pages through one stable list in true slices, naming its length. */
  ghost predicate Honest(serve: Server, list: seq<Row>, size: nat) {
    forall page :: page >= 1 ==>
      HonestPage(serve(page), list, Reach(page - 1, size, |list|), Reach(page, size, |list|), page)
  }

  lemma {:induction false} HonestRows(serve: Server, list: seq<Row>, size: nat, page: nat)
    requires Honest(serve, list, size)
    ensures RowsThrough(serve, page) == list[..Reach(page, size, |list|)]
  {
    if page > 0 {
      HonestRows(serve, list, size, page - 1);
      ReachGrows(page, size, |list|);
      var low, high := Reach(page - 1, size, |list|), Reach(page, size, |list|);
      assert HonestPage(serve(page), list, low, high, page);
      assert list[..low] + list[low..high] == list[..high];
    }
  }

  lemma {:induction false} HonestLastPage(serve: Server, list: seq<Row>, size: nat, page: nat, maximum: nat)
    requires Honest(serve, list, size) && 1 <= page <= MAX_PAGES
    requires |list| <= maximum && Reach(MAX_PAGES, size, |list|) == |list|
    requires size > 0
    ensures Reach(LastPage(serve, page, Reach(page - 1, size, |list|), maximum), size, |list|) == |list|
    decreases MAX_PAGES - page
  {
    var low, high := Reach(page - 1, size, |list|), Reach(page, size, |list|);
    assert HonestPage(serve(page), list, low, high, page);
    SliceIsEmptyAtTheEnd(page, size, |list|);
    if page < MAX_PAGES && high < |list| {
      HonestLastPage(serve, list, size, page + 1, maximum);
    }
  }

  lemma SliceIsEmptyAtTheEnd(page: nat, size: nat, n: nat)
    requires page >= 1 && size > 0
    ensures Reach(page - 1, size, n) <= Reach(page, size, n)
    ensures Reach(page - 1, size, n) == Reach(page, size, n) ==> Reach(page, size, n) == n
  {
    ReachGrows(page, size, n);
    assert page * size == (page - 1) * size + size;
  }

  /** Against an honest server, at most twenty pages of distinct applications are listed completely and in order. */
  lemma HonestListingIsComplete(serve: Server, list: seq<Row>, size: nat, maximumItems: int)
    requires Honest(serve, list, size) && size > 0
    requires DistinctIds(list) && |list| <= Clamp(maximumItems) && |list| <= MAX_PAGES * size
    ensures ListingOf(serve, maximumItems) == Some(Listing(list, Some(|list|), true))
  {
    var maximum := Clamp(maximumItems);
    HonestLastPage(serve, list, size, 1, maximum);
    var last := LastPage(serve, 1, 0, maximum);
    HonestRows(serve, list, size, last);
    assert list[..|list|] == list;
    assert HonestPage(serve(last), list, Reach(last - 1, size, |list|), Reach(last, size, |list|), last);
    forall page | 1 <= page <= last ensures serve(page).Page? && serve(page).total == Some(|list|) {
      assert HonestPage(serve(page), list, Reach(page - 1, size, |list|), Reach(page, size, |list|), page);
    }
  }

  /** Against any server, a complete listing has distinct, non-empty ids that number the one total ever named. */
  lemma CompleteListingIsCounted(serve: Server, maximumItems: int)
    ensures var listing := ListingOf(serve, maximumItems);
            listing.Some? && listing.value.complete ==>
              && DistinctIds(listing.value.items)
              && listing.value.total == Some(|listing.value.items|)
              && var last := LastPage(serve, 1, 0, Clamp(maximumItems));
                 && (forall page :: 1 <= page <= last ==> serve(page).Page?)
                 && listing.value.items == RowsThrough(serve, last)
                 && Agree(serve, last, |listing.value.items|)
  {
    EveryPageLoads(serve, 1, 0, Clamp(maximumItems));
  }

  lemma {:induction false} EveryPageLoads(serve: Server, page: nat, before: nat, maximum: nat)
    requires 1 <= page <= MAX_PAGES
    ensures forall p :: page <= p < LastPage(serve, page, before, maximum) ==> serve(p).Page?
    decreases MAX_PAGES - page
  {
    if LastPage(serve, page, before, maximum) != page {
      EveryPageLoads(serve, page + 1, before + |RowsOn(serve, page)|, maximum);
    }
  }
}
