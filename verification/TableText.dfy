/**
  The table printer and the table redactor of agentbridge/adapters/yuque_content.py, and the splitter on
  unescaped pipes that reads back what the printer writes.
  */
module TableText {
  import opened PythonText

  function Clean(s: string): string {
    Strip(Collapse(s))
  }

  function Escape(s: string): string {
    if s == "" then "" else (if s[0] == '|' then "\\|" else [s[0]]) + Escape(s[1..])
  }

  function Unescape(s: string): string {
    if s == "" then ""
    else if |s| > 1 && s[0] == '\\' && s[1] == '|' then "|" + Unescape(s[2..])
    else [s[0]] + Unescape(s[1..])
  }

  // ----- Splitting at pipes that no backslash precedes -----

  predicate IsCut(s: string, i: nat)
    requires i < |s|
  {
    s[i] == '|' && (i == 0 || s[i - 1] != '\\')
  }

  /** One more character on the last piece, or a new piece after a cut. */
  function Extend(pieces: seq<string>, c: char, cut: bool): (longer: seq<string>)
    requires |pieces| >= 1
    ensures |longer| >= 1
  {
    if cut then pieces + [""] else pieces[..|pieces| - 1] + [pieces[|pieces| - 1] + [c]]
  }

  function Split(s: string): (pieces: seq<string>)
    ensures |pieces| >= 1
  {
    if s == "" then [""]
    else Extend(Split(s[..|s| - 1]), s[|s| - 1], IsCut(s, |s| - 1))
  }

  /** The cells of a table line: the pieces between the first and the last unescaped pipe. */
  function CellsOf(line: string): seq<string> {
    var pieces := Split(Strip(line));
    if |pieces| < 2 then [] else pieces[1..|pieces| - 1]
  }

  /** A piece that survives between two pipes: nothing in it cuts, and it does not escape the next pipe. */
  predicate IsCell(s: string) {
    Split(s) == [s] && !EndsInBackslash(s)
  }

  predicate EndsInBackslash(s: string) {
    s != "" && s[|s| - 1] == '\\'
  }

  /** Cells, each closed by a pipe. */
  function Closed(cells: seq<string>): string {
    if cells == [] then "" else cells[0] + "|" + Closed(cells[1..])
  }

  /** A table line: `"|" + "|".join(cells) + "|"` of at least one cell. */
  function Joined(cells: seq<string>): string {
    "|" + Closed(cells)
  }

  lemma SplitSnoc(s: string, c: char)
    ensures Split(s + [c]) == Extend(Split(s), c, c == '|' && !EndsInBackslash(s))
  {
    assert (s + [c])[..|s|] == s;
  }

  lemma ExtendConcat(left: seq<string>, right: seq<string>, c: char, cut: bool)
    requires |right| >= 1
    ensures Extend(left + right, c, cut) == left + Extend(right, c, cut)
  {
    assert (left + right)[..|left + right| - 1] == left + right[..|right| - 1];
  }

  lemma {:induction false} SplitAtPipe(a: string, b: string)
    requires !EndsInBackslash(a)
    ensures Split(a + "|" + b) == Split(a) + Split(b)
  {
    if b == "" {
      SplitSnoc(a, '|');
      assert a + "|" + b == a + "|";
    } else {
      var b', c := b[..|b| - 1], b[|b| - 1];
      SplitAtPipe(a, b');
      assert b == b' + [c] && a + "|" + b == (a + "|" + b') + [c];
      SplitSnoc(a + "|" + b', c);
      SplitSnoc(b', c);
      assert EndsInBackslash(a + "|" + b') == EndsInBackslash(b');
      ExtendConcat(Split(a), Split(b'), c, c == '|' && !EndsInBackslash(b'));
    }
  }

  lemma ClosedText(cells: seq<string>, text: string)
    requires cells != []
    ensures Closed(cells) + text == cells[0] + "|" + (Closed(cells[1..]) + text)
    ensures [cells[0]] + (cells[1..] + [text]) == cells + [text]
  {
  }

  /** Cells, and what stands after the last pipe. */
  lemma {:induction false} SplitClosed(cells: seq<string>, text: string)
    requires (forall c <- cells :: IsCell(c)) && Split(text) == [text]
    ensures Split(Closed(cells) + text) == cells + [text]
  {
    if cells == [] {
      assert Closed(cells) + text == text;
    } else {
      assert IsCell(cells[0]);
      SplitClosed(cells[1..], text);
      ClosedText(cells, text);
      SplitAtPipe(cells[0], Closed(cells[1..]) + text);
    }
  }

  lemma SplitAfterPipe(text: string)
    ensures Split("|" + text) == [""] + Split(text)
  {
    var nothing: string :| nothing == "";
    SplitAtPipe(nothing, text);
    assert nothing + "|" + text == "|" + text;
  }

  lemma SplitJoined(cells: seq<string>)
    requires forall c <- cells :: IsCell(c)
    ensures Split(Joined(cells)) == [""] + cells + [""]
  {
    var nothing: string :| nothing == "";
    SplitClosed(cells, nothing);
    assert Closed(cells) + nothing == Closed(cells);
    SplitAfterPipe(Closed(cells));
  }

  lemma {:induction false} ClosedEnds(cells: seq<string>)
    ensures Closed(cells) != "" ==> Closed(cells)[|Closed(cells)| - 1] == '|'
    ensures Closed(cells) == "" <==> cells == []
  {
    if cells != [] {
      ClosedEnds(cells[1..]);
    }
  }

  lemma StripJoined(cells: seq<string>)
    ensures Strip(Joined(cells)) == Joined(cells) == LStrip(Joined(cells))
  {
    ClosedEnds(cells);
  }

  /** Reading back a line made of cells gives the cells. */
  lemma CellsOfJoined(cells: seq<string>)
    requires forall c <- cells :: IsCell(c)
    ensures CellsOf(Joined(cells)) == cells
  {
    SplitJoined(cells);
    StripJoined(cells);
  }

  // ----- What the splitter gives -----

  /** All pieces but the last can stand between pipes, and the last is uncut. */
  predicate GoodPieces(pieces: seq<string>) {
    && |pieces| >= 1
    && (forall i :: 0 <= i < |pieces| - 1 ==> IsCell(pieces[i]))
    && Split(pieces[|pieces| - 1]) == [pieces[|pieces| - 1]]
  }

  lemma ExtendGivesGoodPieces(pieces: seq<string>, c: char)
    requires GoodPieces(pieces)
    ensures var last := pieces[|pieces| - 1];
            var longer := Extend(pieces, c, c == '|' && !EndsInBackslash(last));
            GoodPieces(longer) && (EndsInBackslash(longer[|longer| - 1]) <==> c == '\\')
  {
    SplitSnoc(pieces[|pieces| - 1], c);
  }

  lemma {:induction false} SplitGivesCells(s: string)
    ensures GoodPieces(Split(s))
    ensures EndsInBackslash(s) <==> EndsInBackslash(Split(s)[|Split(s)| - 1])
  {
    if s != "" {
      var s', c := s[..|s| - 1], s[|s| - 1];
      assert s == s' + [c];
      SplitGivesCells(s');
      SplitSnoc(s', c);
      ExtendGivesGoodPieces(Split(s'), c);
    }
  }

  lemma CellsOfAreCells(line: string)
    ensures forall c <- CellsOf(line) :: IsCell(c)
  {
    SplitGivesCells(Strip(line));
  }

  // ----- The printer -----

  lemma {:induction false} EscapeSnoc(s: string, c: char)
    ensures Escape(s + [c]) == Escape(s) + EscapedChar(c)
  {
    if s == "" {
    } else {
      EscapeSnoc(s[1..], c);
      assert (s + [c])[1..] == s[1..] + [c];
    }
  }

  lemma UncutSnoc(s: string, c: char)
    requires Split(s) == [s] && (c == '|' ==> EndsInBackslash(s))
    ensures Split(s + [c]) == [s + [c]]
  {
    SplitSnoc(s, c);
  }

  function EscapedChar(c: char): string {
    if c == '|' then ['\\', '|'] else [c]
  }

  lemma EscapedPipeIsUncut(s: string, backslash: char)
    requires Split(s) == [s] && backslash == '\\'
    ensures Split(s + [backslash] + ['|']) == [s + [backslash] + ['|']]
  {
    UncutSnoc(s, backslash);
    UncutSnoc(s + [backslash], '|');
  }

  lemma EscapedCharIsUncut(s: string, c: char)
    requires Split(s) == [s]
    ensures Split(s + EscapedChar(c)) == [s + EscapedChar(c)]
  {
    if c == '|' {
      EscapedPipeIsUncut(s, '\\');
      assert s + EscapedChar(c) == s + ['\\'] + ['|'];
    } else {
      UncutSnoc(s, c);
    }
  }

  /** However it is preceded, an escaped text is never cut. */
  lemma {:induction false} EscapedIsUncut(prefix: string, s: string)
    requires Split(prefix) == [prefix]
    ensures Split(prefix + Escape(s)) == [prefix + Escape(s)]
    decreases |s|
  {
    if s == "" {
      assert prefix + Escape(s) == prefix;
    } else {
      var s', c := s[..|s| - 1], s[|s| - 1];
      assert s == s' + [c];
      EscapeSnoc(s', c);
      assert prefix + Escape(s) == (prefix + Escape(s')) + EscapedChar(c);
      EscapedIsUncut(prefix, s');
      EscapedCharIsUncut(prefix + Escape(s'), c);
    }
  }

  lemma {:induction false} UnescapeUndoesEscape(s: string)
    ensures Unescape(Escape(s)) == s
  {
    if s != "" {
      var rest := Escape(s[1..]);
      UnescapeUndoesEscape(s[1..]);
      assert rest != "" ==> rest[0] != '|';
      if s[0] == '|' {
        assert Escape(s)[2..] == rest;
      } else {
        assert Escape(s)[1..] == rest;
      }
    }
  }

  lemma EscapeKeepsTrimmed(s: string)
    requires Trimmed(s)
    ensures Trimmed(Escape(s))
  {
    if s != "" {
      EscapeSnoc(s[..|s| - 1], s[|s| - 1]);
      assert s == s[..|s| - 1] + [s[|s| - 1]];
    }
  }

  // ----- The printer -----

  function Join(separator: string, parts: seq<string>): string {
    if parts == [] then ""
    else if |parts| == 1 then parts[0]
    else parts[0] + separator + Join(separator, parts[1..])
  }

  function EscapeTableCell(value: string): string {
    Escape(Clean(value))
  }

  function Escaped(row: seq<string>): seq<string> {
    seq(|row|, i requires 0 <= i < |row| => EscapeTableCell(row[i]))
  }

  function PrintedLine(parts: seq<string>): string {
    "| " + Join(" | ", parts) + " |"
  }

  function Width(rows: seq<seq<string>>): nat {
    if rows == [] then 0
    else if |rows[0]| > Width(rows[1..]) then |rows[0]| else Width(rows[1..])
  }

  function Blank(n: nat): seq<string> {
    seq(n, _ => "")
  }

  function Padded(row: seq<string>, width: nat): seq<string> {
    row + Blank(if |row| < width then width - |row| else 0)
  }

  /** The lines of `_render_markdown_rows`: header, rule, one line for each further row. */
  function RenderMarkdownRows(rows: seq<seq<string>>): seq<string> {
    if rows == [] || Width(rows) == 0 then []
    else
      [PrintedLine(Escaped(Padded(rows[0], Width(rows)))), PrintedLine(seq(Width(rows), _ => "---"))]
      + seq(|rows| - 1, k requires 0 <= k < |rows| - 1 => PrintedLine(Escaped(Padded(rows[k + 1], Width(rows)))))
  }

  // ----- Printer and splitter undo each other -----

  function Spaced(parts: seq<string>): seq<string> {
    seq(|parts|, i requires 0 <= i < |parts| => " " + parts[i] + " ")
  }

  lemma {:induction false} JoinIsClosed(parts: seq<string>)
    requires parts != []
    ensures " " + Join(" | ", parts) + " |" == Closed(Spaced(parts))
  {
    var spaced := Spaced(parts);
    if |parts| == 1 {
      assert spaced[1..] == [];
      assert Closed(spaced) == spaced[0] + "|" + "";
    } else {
      JoinIsClosed(parts[1..]);
      assert spaced[1..] == Spaced(parts[1..]);
      var rest := Join(" | ", parts[1..]);
      assert " " + (parts[0] + " | " + rest) + " |" == spaced[0] + "|" + (" " + rest + " |");
    }
  }

  /** Splitting a printed line gives exactly the printed parts, each with a space on either side. */
  lemma PrintedLineSplits(parts: seq<string>)
    requires parts != [] && forall p <- parts :: Split(" " + p) == [" " + p]
    ensures CellsOf(PrintedLine(parts)) == Spaced(parts)
  {
    var spaced := Spaced(parts);
    forall c | c in spaced ensures IsCell(c) {
      var i :| 0 <= i < |parts| && c == spaced[i];
      assert parts[i] in parts;
      UncutSnoc(" " + parts[i], ' ');
    }
    JoinIsClosed(parts);
    assert PrintedLine(parts) == "|" + (" " + Join(" | ", parts) + " |");
    CellsOfJoined(spaced);
  }

  lemma PrintedRowReadsBack(row: seq<string>)
    requires row != []
    ensures |CellsOf(PrintedLine(Escaped(row)))| == |row|
    ensures forall i :: 0 <= i < |row| ==> Unescape(Strip(CellsOf(PrintedLine(Escaped(row)))[i])) == Clean(row[i])
  {
    var parts := Escaped(row);
    forall p | p in parts ensures Split(" " + p) == [" " + p] {
      var i :| 0 <= i < |row| && p == parts[i];
      PlainIsUncut("", " ");
      EscapedIsUncut(" ", Clean(row[i]));
    }
    PrintedLineSplits(parts);
    forall i | 0 <= i < |row| ensures Unescape(Strip(Spaced(parts)[i])) == Clean(row[i]) {
      StripTrims(Collapse(row[i]));
      EscapeKeepsTrimmed(Clean(row[i]));
      StripPadded(parts[i]);
      UnescapeUndoesEscape(Clean(row[i]));
    }
  }

  lemma {:induction false} PlainIsUncut(prefix: string, s: string)
    requires Split(prefix) == [prefix] && forall i :: 0 <= i < |s| ==> s[i] != '|'
    ensures Split(prefix + s) == [prefix + s]
    decreases |s|
  {
    if s == "" {
      assert prefix + s == prefix;
    } else {
      var longer, rest := prefix + [s[0]], s[1..];
      assert longer + rest == prefix + s;
      assert Split(longer) == [longer] by {
        UncutSnoc(prefix, s[0]);
      }
      PlainIsUncut(longer, rest);
    }
  }

  lemma PlainTextIsUncut(s: string)
    requires forall i :: 0 <= i < |s| ==> s[i] != '|'
    ensures Split(s) == [s]
  {
    var nothing: string :| nothing == "";
    PlainIsUncut(nothing, s);
    assert nothing + s == s;
  }

  lemma RuleReadsBack(width: nat)
    requires width > 0
    ensures CellsOf(PrintedLine(seq(width, _ => "---"))) == seq(width, _ => " --- ")
  {
    var rule: string :| rule == "---";
    var parts := seq(width, _ => rule);
    PlainTextIsUncut(" " + rule);
    PrintedLineSplits(parts);
    assert " " + rule + " " == " --- ";
    assert Spaced(parts) == seq(width, _ => " --- ");
    assert parts == seq(width, _ => "---");
  }

  lemma LinesOf(rows: seq<seq<string>>, k: nat)
    requires k < |rows| && Width(rows) > 0
    ensures |RenderMarkdownRows(rows)| == |rows| + 1
    ensures RenderMarkdownRows(rows)[if k == 0 then 0 else k + 1] == PrintedLine(Escaped(Padded(rows[k], Width(rows))))
    ensures RenderMarkdownRows(rows)[1] == PrintedLine(seq(Width(rows), _ => "---"))
  {
  }

  lemma CleanNothing(row: seq<string>, from: nat)
    requires from <= |row| && forall i :: from <= i < |row| ==> row[i] == ""
    ensures forall i :: from <= i < |row| ==> Clean(row[i]) == ""
  {
  }

  /**
    Every line of a printed table splits back, on unescaped pipes, into exactly as many cells as the
    widest row has; trimmed and unescaped they are the row's cleaned values and then blanks,
    whatever pipes and backslashes the values contain.
    */
  lemma PrintedTableReadsBack(rows: seq<seq<string>>, k: nat)
    requires k < |rows| && Width(rows) > 0
    ensures var lines := RenderMarkdownRows(rows);
            var cells := CellsOf(lines[if k == 0 then 0 else k + 1]);
            && |lines| == |rows| + 1
            && |cells| == Width(rows) && |rows[k]| <= Width(rows)
            && (forall i :: 0 <= i < Width(rows) ==>
                  Unescape(Strip(cells[i])) == if i < |rows[k]| then Clean(rows[k][i]) else "")
            && CellsOf(lines[1]) == seq(Width(rows), _ => " --- ")
  {
    WidthBounds(rows, k);
    LinesOf(rows, k);
    PrintedRowReadsBack(Padded(rows[k], Width(rows)));
    RuleReadsBack(Width(rows));
    CleanNothing(Padded(rows[k], Width(rows)), |rows[k]|);
  }

  lemma {:induction false} WidthBounds(rows: seq<seq<string>>, k: nat)
    requires k < |rows|
    ensures |rows[k]| <= Width(rows)
  {
    if k > 0 {
      WidthBounds(rows[1..], k - 1);
    }
  }

  // ----- A printed row is one line -----

  lemma {:induction false} CollapseLeavesOnlyBlanks(s: string)
    ensures forall c <- Collapse(s) :: IsSpace(c) ==> c == ' '
  {
    if s != "" {
      CollapseLeavesOnlyBlanks(s[1..]);
    }
  }

  lemma {:induction false} EscapeAddsOnlyBackslashes(s: string)
    ensures forall c <- Escape(s) :: c in s || c == '\\'
  {
    if s != "" {
      EscapeAddsOnlyBackslashes(s[1..]);
    }
  }

  lemma {:induction false} JoinCharacters(separator: string, parts: seq<string>, c: char)
    requires c in Join(separator, parts)
    ensures c in separator || exists p <- parts :: c in p
  {
    if |parts| > 1 && c !in parts[0] && c !in separator {
      JoinCharacters(separator, parts[1..], c);
    }
  }

  /** No line break of a value survives into its line: the printed table has one line per row. */
  lemma PrintedRowIsOneLine(row: seq<string>, c: char)
    requires c in PrintedLine(Escaped(row))
    ensures IsSpace(c) ==> c == ' '
  {
    if c in Join(" | ", Escaped(row)) {
      JoinCharacters(" | ", Escaped(row), c);
      if c !in " | " {
        var p :| p in Escaped(row) && c in p;
        var i :| 0 <= i < |row| && p == Escaped(row)[i];
        CollapseLeavesOnlyBlanks(row[i]);
        StripTrims(Collapse(row[i]));
        EscapeAddsOnlyBackslashes(Clean(row[i]));
      }
    }
  }
}
