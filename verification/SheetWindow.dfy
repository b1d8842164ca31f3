/**
  One worksheet of `_render_lake_sheet` (agentbridge/adapters/yuque_content.py): a window of rows,
  redacted with the secret columns that earlier rows, shown or not, have announced.
  */
module SheetWindow {
  import opened Redaction

  /** Row keys in increasing order, the displayed cells of each row over the returned columns, and what a label is. */
  datatype Sheet = Sheet(keys: seq<nat>, width: nat, cells: nat -> seq<string>, isLabel: string -> bool)

  ghost predicate Valid(s: Sheet) {
    && (forall i, j :: 0 <= i < j < |s.keys| ==> s.keys[i] < s.keys[j])
    && (forall key :: |s.cells(key)| == s.width)
  }

  // ----- The whole sheet, redacted row by row -----

  function Labels(s: Sheet, values: seq<string>): set<nat> {
    set i: nat | i < |values| && s.isLabel(values[i])
  }

  /** The columns announced secret by the last of the first `n` rows that holds a label. */
  function SecretsAfter(s: Sheet, n: nat): set<nat>
    requires n <= |s.keys|
  {
    if n == 0 then {}
    else
      var labels := Labels(s, s.cells(s.keys[n - 1]));
      if labels != {} then labels else SecretsAfter(s, n - 1)
  }

  /** A row with its non-empty cells in secret columns hidden, except where they are labels themselves. */
  function Redact(s: Sheet, values: seq<string>, secrets: set<nat>): seq<string> {
    seq(|values|, i requires 0 <= i < |values| =>
      if i in secrets && !s.isLabel(values[i]) && values[i] != "" then REDACTED else values[i])
  }

  function RedactedRow(s: Sheet, i: nat): seq<string>
    requires i < |s.keys|
  {
    Redact(s, s.cells(s.keys[i]), SecretsAfter(s, i + 1))
  }

  function WholeSheet(s: Sheet): seq<seq<string>> {
    seq(|s.keys|, i requires 0 <= i < |s.keys| => RedactedRow(s, i))
  }

  /** Columns of the row that redaction hides. */
  function HiddenIn(s: Sheet, i: nat): set<nat>
    requires i < |s.keys|
  {
    var values := s.cells(s.keys[i]);
    set c: nat | c < |values| && c in SecretsAfter(s, i + 1) && !s.isLabel(values[c]) && values[c] != ""
  }

  function HiddenCells(s: Sheet, from: nat, to: nat): nat
    requires from <= to <= |s.keys|
  {
    if from == to then 0 else HiddenCells(s, from, to - 1) + |HiddenIn(s, to - 1)|
  }

  function WindowEnd(s: Sheet, offset: nat, maxRows: nat): nat {
    if offset + maxRows < |s.keys| then offset + maxRows else |s.keys|
  }

  function WindowStart(s: Sheet, offset: nat): nat {
    if offset < |s.keys| then offset else |s.keys|
  }

  // ----- The code -----

  function NonEmpty(values: seq<string>, columns: set<nat>): set<nat> {
    set c | c in columns && c < |values| && values[c] != ""
  }

  function Hidden(values: seq<string>, columns: set<nat>): seq<string> {
    Replaced(values, NonEmpty(values, columns), REDACTED)
  }

  lemma HidesOneMore(values: seq<string>, done: set<nat>, c: nat)
    requires c < |values| && c !in done
    ensures Hidden(values, done + {c})
            == if values[c] != "" then Hidden(values, done)[c := REDACTED] else Hidden(values, done)
    ensures |NonEmpty(values, done + {c})| == |NonEmpty(values, done)| + (if values[c] != "" then 1 else 0)
  {
    if values[c] != "" {
      assert NonEmpty(values, done + {c}) == NonEmpty(values, done) + {c};
      ReplacesOneMore(values, NonEmpty(values, done), c, REDACTED);
    } else {
      assert NonEmpty(values, done + {c}) == NonEmpty(values, done);
    }
  }

  /** Hides the cells of one shown row; `count` is how many. */
  method HideCells(values: seq<string>, columns: set<nat>) returns (shown: seq<string>, count: nat)
    requires forall c <- columns :: c < |values|
    ensures shown == Hidden(values, columns)
    ensures count == |NonEmpty(values, columns)|
  {
    shown, count := values, 0;
    var done: set<nat> := {};
    while done != columns
      invariant done <= columns
      invariant shown == Hidden(values, done)
      invariant count == |NonEmpty(values, done)|
      decreases |columns - done|
    {
      var column :| column in columns - done;
      HidesOneMore(values, done, column);
      assert columns - (done + {column}) < columns - done;
      if shown[column] != "" {
        shown := shown[column := REDACTED];
        count := count + 1;
      }
      done := done + {column};
    }
  }

  /** Hiding what is secret and not a label, as the code does, is the redaction of the row. */
  lemma HidingIsRedaction(s: Sheet, i: nat)
    requires Valid(s) && i < |s.keys|
    ensures var values := s.cells(s.keys[i]);
            var columns := SecretsAfter(s, i + 1) - Labels(s, values);
            Hidden(values, columns) == RedactedRow(s, i) && NonEmpty(values, columns) == HiddenIn(s, i)
  {
  }

  lemma {:induction false} SecretsAreColumns(s: Sheet, n: nat)
    requires Valid(s) && n <= |s.keys|
    ensures forall c <- SecretsAfter(s, n) :: c < s.width
  {
    if n > 0 {
      SecretsAreColumns(s, n - 1);
    }
  }

  /** A key is in the window's slice of the keys exactly if its position is. */
  lemma KeyInSlice(s: Sheet, from: nat, to: nat, i: nat)
    requires Valid(s) && from <= to <= |s.keys| && i < |s.keys|
    ensures s.keys[i] in s.keys[from..to] <==> from <= i < to
    ensures from < to ==> (s.keys[i] > s.keys[from..to][to - from - 1] <==> i >= to)
  {
    if s.keys[i] in s.keys[from..to] {
      var k :| 0 <= k < to - from && s.keys[from..to][k] == s.keys[i];
      assert s.keys[from + k] == s.keys[i];
    }
    if from <= i < to {
      assert s.keys[from..to][i - from] == s.keys[i];
    }
  }

  /** One row that the window shows. */
  method ShowRow(s: Sheet, i: nat, secrets: set<nat>) returns (shown: seq<string>, count: nat)
    requires Valid(s) && i < |s.keys| && secrets == SecretsAfter(s, i + 1)
    ensures shown == RedactedRow(s, i) && count == |HiddenIn(s, i)|
  {
    var values := s.cells(s.keys[i]);
    SecretsAreColumns(s, i + 1);
    HidingIsRedaction(s, i);
    shown, count := HideCells(values, secrets - Labels(s, values));
  }

  /** How far into the window the first `i` rows reach. */
  function Reached(i: nat, from: nat, to: nat): nat
    requires from <= to
  {
    if i < from then from else if i < to then i else to
  }

  /**
    The rows shown for any offset and limit are exactly that slice of the redacted whole sheet, however
    far above the window the columns were announced.
    */
  method RenderWindow(s: Sheet, offset: nat, maxRows: nat)
    returns (rows: seq<seq<string>>, redactedCells: nat, hasMore: bool)
    requires Valid(s)
    ensures WindowStart(s, offset) <= WindowEnd(s, offset, maxRows)
    ensures rows == WholeSheet(s)[WindowStart(s, offset)..WindowEnd(s, offset, maxRows)]
    ensures redactedCells == HiddenCells(s, WindowStart(s, offset), WindowEnd(s, offset, maxRows))
    ensures hasMore <==> offset + |rows| < |s.keys|
  {
    var from, to := WindowStart(s, offset), WindowEnd(s, offset, maxRows);
    var selected := s.keys[from..to];
    rows, redactedCells := [], 0;
    var secrets: set<nat> := {};
    var i := 0;
    while i < |s.keys|
      invariant 0 <= i <= |s.keys|
      invariant secrets == SecretsAfter(s, i)
      invariant selected == [] || i <= to
      invariant rows == WholeSheet(s)[from..Reached(i, from, to)]
      invariant redactedCells == HiddenCells(s, from, Reached(i, from, to))
    {
      var key := s.keys[i];
      KeyInSlice(s, from, to, i);
      if selected != [] && key > selected[|selected| - 1] {
        break;
      }
      var labels := Labels(s, s.cells(key));
      if labels != {} {
        secrets := labels;
      }
      if key in selected {
        var shown, count := ShowRow(s, i, secrets);
        assert WholeSheet(s)[from..i + 1] == WholeSheet(s)[from..i] + [shown];
        redactedCells := redactedCells + count;
        rows := rows + [shown];
      }
      i := i + 1;
    }
    hasMore := offset + |rows| < |s.keys|;
  }

  // ----- Following the offsets -----

  /** What a client collects that starts at `offset` and goes on after the rows it got while there are more. */
  function Follow(s: Sheet, offset: nat, maxRows: nat): seq<seq<string>>
    requires maxRows >= 1
    decreases if offset < |s.keys| then |s.keys| - offset else 0
  {
    var rows := WholeSheet(s)[WindowStart(s, offset)..WindowEnd(s, offset, maxRows)];
    if offset + |rows| < |s.keys| then rows + Follow(s, offset + |rows|, maxRows) else rows
  }

  /** Every row of the sheet exactly once and in order, for any page size, from any offset. */
  lemma {:induction false} FollowRebuildsTheSheet(s: Sheet, offset: nat, maxRows: nat)
    requires maxRows >= 1 && offset <= |s.keys|
    ensures Follow(s, offset, maxRows) == WholeSheet(s)[offset..]
    decreases |s.keys| - offset
  {
    var rows := WholeSheet(s)[offset..WindowEnd(s, offset, maxRows)];
    if offset + |rows| < |s.keys| {
      FollowRebuildsTheSheet(s, offset + |rows|, maxRows);
      assert rows + WholeSheet(s)[offset + |rows|..] == WholeSheet(s)[offset..];
    }
  }

  /** The last row at or above `i` that has any label is `r`. */
  predicate LastAnnouncement(s: Sheet, i: nat, r: nat)
    requires i < |s.keys|
  {
    && r <= i
    && Labels(s, s.cells(s.keys[r])) != {}
    && forall k :: r < k <= i ==> Labels(s, s.cells(s.keys[k])) == {}
  }

  lemma {:induction false} LastAnnouncementRules(s: Sheet, i: nat, r: nat)
    requires i < |s.keys| && LastAnnouncement(s, i, r)
    ensures SecretsAfter(s, i + 1) == Labels(s, s.cells(s.keys[r]))
  {
    if r < i {
      LastAnnouncementRules(s, i - 1, r);
    }
  }

  lemma {:induction false} NothingAnnounced(s: Sheet, i: nat)
    requires i < |s.keys| && forall k :: 0 <= k <= i ==> Labels(s, s.cells(s.keys[k])) == {}
    ensures SecretsAfter(s, i + 1) == {}
  {
    if i > 0 {
      NothingAnnounced(s, i - 1);
    }
  }

  /**
    What redaction shows of every cell.  If the last row at or above with any label has a label in that
    column, the cell is shown as it is exactly when it is empty or a label, and is
    hidden otherwise; in every other column, and above every announcement, it is shown as it is.
    */
  lemma NoSecretIsShown(s: Sheet, i: nat, c: nat)
    requires Valid(s) && i < |s.keys| && c < s.width
    ensures forall r: nat :: LastAnnouncement(s, i, r) && s.isLabel(s.cells(s.keys[r])[c]) ==>
              var cell, shown := s.cells(s.keys[i])[c], WholeSheet(s)[i][c];
              if cell == "" || s.isLabel(cell) then shown == cell else shown == REDACTED
    ensures forall r: nat :: LastAnnouncement(s, i, r) && !s.isLabel(s.cells(s.keys[r])[c]) ==>
              WholeSheet(s)[i][c] == s.cells(s.keys[i])[c]
    ensures (forall k :: 0 <= k <= i ==> Labels(s, s.cells(s.keys[k])) == {}) ==>
              WholeSheet(s)[i][c] == s.cells(s.keys[i])[c]
  {
    forall r: nat | LastAnnouncement(s, i, r) ensures SecretsAfter(s, i + 1) == Labels(s, s.cells(s.keys[r])) {
      LastAnnouncementRules(s, i, r);
    }
    if forall k :: 0 <= k <= i ==> Labels(s, s.cells(s.keys[k])) == {} {
      NothingAnnounced(s, i);
    }
  }
}
