/**
  Cancelling a meeting-room application and reading back whether it is gone
  (agentbridge/adapters/seeyon_meeting_room_application.py).
  */
module Cancellation {
  import opened Options
  import opened PythonText
  import opened MeetingListing

  const ATTEMPTS: nat := 7
  const MAXIMUM_ITEMS := 2000

  /** The application as frozen in the plan; `id` is taken over from the listing as it stands there. */
  datatype Target = Target(id: string, room: string, rest: string, status: string, usage: string)

  function Frozen(row: Row): Target {
    Target(row.id, row.room, row.rest, row.status, row.usage)
  }

  /** An entry of the room snapshot; `room` is empty where it names none. */
  datatype App = Malformed | App(id: string, room: string)

  /** `apps` or `rooms` is `None` when it is no list; a room without a record is `None`. */
  datatype Snapshot = Unreadable | Snapshot(apps: Option<seq<App>>, rooms: Option<seq<Option<string>>>)

  /** Why a cancellation counts as confirmed. */
  datatype Evidence = AbsentFromListing | TerminalStatus | AbsentFromSnapshot

  datatype Outcome = Refused | Confirmed(evidence: Evidence, attempt: nat) | OutcomeUnknown

  // ----- One readback -----

  function Matches(rows: seq<Row>, id: string): seq<Row> {
    if rows == [] then []
    else (if Strip(rows[0].id) == id then [rows[0]] else []) + Matches(rows[1..], id)
  }

  /** What an application listing shows about the target; an incomplete one counts as a read error. */
  function ListingEvidence(listing: Option<Listing>, target: Target): Option<Evidence> {
    if listing.None? || !listing.value.complete then None
    else
      var matches := Matches(listing.value.items, target.id);
      if matches == [] then Some(AbsentFromListing)
      else if |matches| == 1 && matches[0].status == "4" then Some(TerminalStatus)
      else None
  }

  predicate WellFormedApps(apps: seq<App>) {
    forall k :: 0 <= k < |apps| ==> apps[k].App? && Strip(apps[k].id) != "" && apps[k].room != ""
  }

  /** `_snapshot_contains_application`; `None` where it raises. */
  function Contains(snapshot: Snapshot, target: Target): Option<bool> {
    if snapshot.Unreadable? then None
    else if target.id == "" || target.room == "" then Some(false)
    else if snapshot.apps.None? || !WellFormedApps(snapshot.apps.value) then None
    else if snapshot.rooms.None? || Some(target.room) !in snapshot.rooms.value then None
    else Some(exists k :: 0 <= k < |snapshot.apps.value| && Holds(snapshot.apps.value[k], target.id, target.room))
  }

  predicate Holds(app: App, id: string, room: string) {
    app.App? && Strip(app.id) == id && app.room == room
  }

  /** What OA answers while the cancellation is read back: a listing and a snapshot for every attempt. */
  datatype Oa = Oa(listings: nat -> Server, snapshots: nat -> Snapshot)

  function ListingAt(oa: Oa, attempt: nat): Option<Listing> {
    ListingOf(oa.listings(attempt), MAXIMUM_ITEMS)
  }

  /** The evidence of one attempt: the listing first, then the snapshot if the target was in it before. */
  function EvidenceAt(oa: Oa, target: Target, wasInSnapshot: bool, attempt: nat): Option<Evidence> {
    var listed := ListingEvidence(ListingAt(oa, attempt), target);
    if listed.Some? then listed
    else if wasInSnapshot && Contains(oa.snapshots(attempt), target) == Some(false) then Some(AbsentFromSnapshot)
    else None
  }

  // ----- The readback loop -----

  method MatchingRows(rows: seq<Row>, id: string) returns (matches: seq<Row>)
    ensures matches == Matches(rows, id)
  {
    matches := [];
    for i := |rows| downto 0
      invariant matches == Matches(rows[i..], id)
    {
      if Strip(rows[i].id) == id {
        matches := [rows[i]] + matches;
      }
    }
  }

  /** What the application listing says; any error in reading it says nothing. */
  method ReadListing(oa: Oa, target: Target, attempt: nat) returns (evidence: Option<Evidence>)
    ensures evidence == ListingEvidence(ListingAt(oa, attempt), target)
  {
    evidence := None;
    var listing := QueryMyApplications(oa.listings(attempt), MAXIMUM_ITEMS);
    if listing.Some? && listing.value.complete {
      var matches := MatchingRows(listing.value.items, target.id);
      if matches == [] {
        evidence := Some(AbsentFromListing);
      } else if |matches| == 1 && matches[0].status == "4" {
        evidence := Some(TerminalStatus);
      }
    }
  }

  /** Confirmed by the first attempt that has evidence, and otherwise unknown. */
  method VerifyCancellation(oa: Oa, target: Target, wasInSnapshot: bool) returns (outcome: Outcome)
    ensures !outcome.Refused?
    ensures outcome.Confirmed? ==>
              && outcome.attempt < ATTEMPTS
              && EvidenceAt(oa, target, wasInSnapshot, outcome.attempt) == Some(outcome.evidence)
              && forall a :: 0 <= a < outcome.attempt ==> EvidenceAt(oa, target, wasInSnapshot, a).None?
    ensures outcome == OutcomeUnknown <==>
              forall a :: 0 <= a < ATTEMPTS ==> EvidenceAt(oa, target, wasInSnapshot, a).None?
  {
    for attempt := 0 to ATTEMPTS
      invariant forall a :: 0 <= a < attempt ==> EvidenceAt(oa, target, wasInSnapshot, a).None?
    {
      var evidence := ReadListing(oa, target, attempt);
      if evidence.None? && wasInSnapshot && Contains(oa.snapshots(attempt), target) == Some(false) {
        evidence := Some(AbsentFromSnapshot);
      }
      if evidence.Some? {
        return Confirmed(evidence.value, attempt);
      }
    }
    outcome := OutcomeUnknown;
  }

  /** The one application of this id may be cancelled. */
  predicate Cancelable(row: Row) {
    Strip(row.id) != "" && !row.linked && row.status != "4" && row.usage != "1" && row.usage != "2" && row.usage != "3"
  }

  /** The listing before the write has exactly this application, unchanged and cancelable, and the snapshot is whole. */
  predicate MayCancel(target: Target, before: Server, snapshot: Snapshot) {
    && 1 <= |Strip(target.id)| <= 128
    && ListingOf(before, MAXIMUM_ITEMS).Some?
    && Contains(snapshot, target).Some?
    && var matches := Matches(ListingOf(before, MAXIMUM_ITEMS).value.items, Strip(target.id));
       |matches| == 1 && Frozen(matches[0]) == target && Cancelable(matches[0])
  }

  /**
    The cancellation.  `before` and `snapshot` are what OA shows before the write; whether the write is
    accepted, refused or breaks off changes nothing about the outcome.  OA is written to exactly once, and
    not at all when the request is refused.
    */
  method CancelApplication(target: Target, before: Server, snapshot: Snapshot, accepted: bool, oa: Oa)
    returns (outcome: Outcome, writes: nat, acknowledged: bool)
    ensures outcome.Refused? <==> !MayCancel(target, before, snapshot)
    ensures writes == (if outcome.Refused? then 0 else 1)
    ensures acknowledged <==> accepted && writes == 1
    ensures !outcome.Refused? ==>
              var was := Contains(snapshot, target).value;
              && (was ==> Strip(target.id) == target.id && target.id != "" && target.room != "")
              && (outcome.Confirmed? ==>
                    && outcome.attempt < ATTEMPTS
                    && EvidenceAt(oa, target, was, outcome.attempt) == Some(outcome.evidence)
                    && forall a :: 0 <= a < outcome.attempt ==> EvidenceAt(oa, target, was, a).None?)
              && (outcome == OutcomeUnknown <==>
                    forall a :: 0 <= a < ATTEMPTS ==> EvidenceAt(oa, target, was, a).None?)
  {
    outcome, writes, acknowledged := Refused, 0, false;
    var id := Strip(target.id);
    if id != "" && |id| <= 128 {
      var listing := QueryMyApplications(before, MAXIMUM_ITEMS);
      if listing.Some? {
        var matches := MatchingRows(listing.value.items, id);
        var was := Contains(snapshot, target);
        if |matches| == 1 && Frozen(matches[0]) == target && Cancelable(matches[0]) && was.Some? {
          SnapshotHoldsStripped(snapshot, target);
          writes := 1;
          acknowledged := accepted;
          outcome := VerifyCancellation(oa, target, was.value);
        }
      }
    }
  }

  lemma StripTwice(s: string)
    ensures Strip(Strip(s)) == Strip(s)
  {
    StripTrims(s);
  }

  lemma SnapshotHoldsStripped(snapshot: Snapshot, target: Target)
    ensures Contains(snapshot, target) == Some(true) ==>
              Strip(target.id) == target.id && target.id != "" && target.room != ""
  {
    if Contains(snapshot, target) == Some(true) {
      var k :| 0 <= k < |snapshot.apps.value| && Holds(snapshot.apps.value[k], target.id, target.room);
      StripTwice(snapshot.apps.value[k].id);
    }
  }

  // ----- No false confirmation -----

  /** The application is among these rows, and is not terminal. */
  predicate ActiveIn(rows: seq<Row>, target: Target) {
    && (exists k :: 0 <= k < |rows| && Strip(rows[k].id) == Strip(target.id))
    && (forall k :: 0 <= k < |rows| && Strip(rows[k].id) == Strip(target.id) ==> rows[k].status != "4")
  }

  predicate OccupiedIn(snapshot: Snapshot, target: Target) {
    && snapshot.Snapshot?
    && snapshot.apps.Some? && WellFormedApps(snapshot.apps.value)
    && snapshot.rooms.Some? && Some(target.room) in snapshot.rooms.value
    ==>
      exists k :: 0 <= k < |snapshot.apps.value|
                  && Holds(snapshot.apps.value[k], Strip(target.id), target.room)
  }

  /** OA keeps the application: every complete listing has it active, and every whole snapshot has it. */
  predicate KeepsActive(oa: Oa, target: Target) {
    forall a :: 0 <= a < ATTEMPTS ==>
      && (ListingAt(oa, a).Some? && ListingAt(oa, a).value.complete ==> ActiveIn(ListingAt(oa, a).value.items, target))
      && OccupiedIn(oa.snapshots(a), target)
  }

  lemma {:induction false} MatchesAreThose(rows: seq<Row>, id: string)
    ensures Matches(rows, id) == [] <==> forall k :: 0 <= k < |rows| ==> Strip(rows[k].id) != id
    ensures forall row :: row in Matches(rows, id) <==> row in rows && Strip(row.id) == id
  {
    if rows != [] {
      MatchesAreThose(rows[1..], id);
    }
  }

  lemma ActiveListingGivesNoEvidence(listing: Listing, target: Target)
    requires listing.complete && ActiveIn(listing.items, target)
    ensures ListingEvidence(Some(listing), target).Some? <==> Strip(target.id) != target.id
  {
    MatchesAreThose(listing.items, target.id);
    StripNeverYields(listing.items, target.id);
    var matches := Matches(listing.items, target.id);
    if matches != [] {
      assert matches[0] in matches;
    }
  }

  lemma OccupiedSnapshotGivesNoEvidence(snapshot: Snapshot, target: Target)
    requires OccupiedIn(snapshot, target)
    requires Strip(target.id) == target.id && target.id != "" && target.room != ""
    ensures Contains(snapshot, target) != Some(false)
  {
  }

  lemma ActiveGivesNoEvidence(oa: Oa, target: Target, was: bool, a: nat)
    requires KeepsActive(oa, target) && a < ATTEMPTS
    requires was ==> Strip(target.id) == target.id && target.id != "" && target.room != ""
    ensures EvidenceAt(oa, target, was, a).Some? <==>
              ListingAt(oa, a).Some? && ListingAt(oa, a).value.complete && Strip(target.id) != target.id
  {
    var listing := ListingAt(oa, a);
    if listing.Some? && listing.value.complete {
      ActiveListingGivesNoEvidence(listing.value, target);
    }
    if was {
      OccupiedSnapshotGivesNoEvidence(oa.snapshots(a), target);
    }
  }

  /** No stripped id equals an id that has spaces around it. */
  lemma StripNeverYields(rows: seq<Row>, id: string)
    ensures Strip(id) != id ==> forall k :: 0 <= k < |rows| ==> Strip(rows[k].id) != id
  {
    forall k | 0 <= k < |rows| ensures Strip(id) != id ==> Strip(rows[k].id) != id {
      StripTwice(rows[k].id);
    }
  }

  /**
    While OA keeps the application active, no pattern of read errors confirms the cancellation: the outcome
    is unknown, if and only if the frozen id has no surrounding whitespace or no listing is read completely.
    With such whitespace a complete listing that still shows the application is taken for its absence,
    because the listed ids are stripped and the frozen one is not.
    */
  lemma UnknownWhileActive(oa: Oa, target: Target, was: bool)
    requires KeepsActive(oa, target)
    requires was ==> Strip(target.id) == target.id && target.id != "" && target.room != ""
    ensures (forall a :: 0 <= a < ATTEMPTS ==> EvidenceAt(oa, target, was, a).None?) <==>
              || Strip(target.id) == target.id
              || (forall a :: 0 <= a < ATTEMPTS ==> !(ListingAt(oa, a).Some? && ListingAt(oa, a).value.complete))
  {
    forall a | 0 <= a < ATTEMPTS
      ensures EvidenceAt(oa, target, was, a).Some? <==>
                ListingAt(oa, a).Some? && ListingAt(oa, a).value.complete && Strip(target.id) != target.id
    {
      ActiveGivesNoEvidence(oa, target, was, a);
    }
  }

  /**
    Whatever confirms is really there: a complete listing, or a whole snapshot, that shows the target gone.
    `CancelApplication` uses the snapshot only for a target that has an id and a room.
    */
  lemma ConfirmationIsEvident(oa: Oa, target: Target, was: bool, attempt: nat)
    requires EvidenceAt(oa, target, was, attempt).Some? && Strip(target.id) == target.id
    ensures match EvidenceAt(oa, target, was, attempt).value
            case AbsentFromListing =>
              && ListingAt(oa, attempt).Some? && ListingAt(oa, attempt).value.complete
              && DistinctIds(ListingAt(oa, attempt).value.items)
              && forall k :: 0 <= k < |ListingAt(oa, attempt).value.items| ==>
                   Strip(ListingAt(oa, attempt).value.items[k].id) != target.id
            case TerminalStatus =>
              && ListingAt(oa, attempt).Some? && ListingAt(oa, attempt).value.complete
              && exists row :: row in ListingAt(oa, attempt).value.items
                               && Strip(row.id) == target.id && row.status == "4"
            case AbsentFromSnapshot =>
              && was
              && var snapshot := oa.snapshots(attempt);
                 && snapshot.Snapshot?
                 && (target.id != "" && target.room != "" ==>
                       && snapshot.apps.Some? && snapshot.rooms.Some? && Some(target.room) in snapshot.rooms.value
                       && forall app <- snapshot.apps.value ::
                            app.App? && Strip(app.id) != "" && app.room != ""
                            && !(Strip(app.id) == target.id && app.room == target.room))
  {
    var listing := ListingAt(oa, attempt);
    CompleteListingIsCounted(oa.listings(attempt), MAXIMUM_ITEMS);
    if listing.Some? {
      MatchesAreThose(listing.value.items, target.id);
      var matches := Matches(listing.value.items, target.id);
      if |matches| == 1 {
        assert matches[0] in matches;
      }
    }
  }

  lemma OneRowIsListed(serve: Server, row: Row)
    requires row.id != "" && forall page :: serve(page) == Page([row], Some(1), Some(1))
    ensures ListingOf(serve, MAXIMUM_ITEMS) == Some(Listing([row], Some(1), true))
  {
    assert RowsThrough(serve, 1) == RowsThrough(serve, 0) + [row];
    assert RowsThrough(serve, 1) == [row];
    assert LastPage(serve, 1, 0, Clamp(MAXIMUM_ITEMS)) == 1;
  }

  /** An application that may be cancelled and whose listed id has whitespace around it. */
  predicate Padded(row: Row) {
    Cancelable(row) && row.room != "" && Strip(row.id) != row.id && |Strip(row.id)| <= 128
  }

  lemma PaddedIdPassesTheGate(row: Row, before: Server, snapshot: Snapshot)
    requires Padded(row)
    requires forall page :: before(page) == Page([row], Some(1), Some(1))
    requires snapshot == Snapshot(Some([App(row.id, row.room)]), Some([Some(row.room)]))
    ensures MayCancel(Frozen(row), before, snapshot)
    ensures OccupiedIn(snapshot, Frozen(row)) && Contains(snapshot, Frozen(row)) == Some(false)
  {
    OneRowIsListed(before, row);
    assert Matches([row], Strip(row.id)) == [row];
    var app := snapshot.apps.value[0];
    assert Holds(app, Strip(row.id), row.room) && !Holds(app, row.id, row.room);
  }

  /**
    Such an active application is reported as cancelled: the request passes every check before the write,
    OA keeps the application, and the first readback has evidence that it is gone.
    */
  lemma PaddedIdIsConfirmedWhileActive(row: Row, before: Server, snapshot: Snapshot, oa: Oa)
    requires Padded(row)
    requires forall page :: before(page) == Page([row], Some(1), Some(1))
    requires snapshot == Snapshot(Some([App(row.id, row.room)]), Some([Some(row.room)]))
    requires forall a :: oa.listings(a) == before && oa.snapshots(a) == snapshot
    ensures MayCancel(Frozen(row), before, snapshot) && Contains(snapshot, Frozen(row)) == Some(false)
    ensures KeepsActive(oa, Frozen(row))
    ensures EvidenceAt(oa, Frozen(row), false, 0) == Some(AbsentFromListing)
  {
    PaddedIdPassesTheGate(row, before, snapshot);
    OneRowIsListed(before, row);
    assert Matches([row], row.id) == [];
    assert ActiveIn([row], Frozen(row));
    forall a | 0 <= a < ATTEMPTS
      ensures ListingAt(oa, a) == Some(Listing([row], Some(1), true)) && OccupiedIn(oa.snapshots(a), Frozen(row))
    {
    }
  }

  /** One such application: a space stands before its id. */
  lemma OneIsPadded(row: Row)
    requires row == Row(" 7", "1", "0", false, "Room", "")
    ensures Padded(row)
  {
    assert LStrip(row.id) == LStrip(row.id[1..]);
  }
}
