/**
  Column-aligned redaction of table text (`_redact_table_text` in agentbridge/adapters/yuque_content.py),
  first over any line syntax that reads back what it prints, then for pipe tables.
  */
module TableRedaction {
  import opened PythonText
  import opened Redaction
  import opened TableText

  datatype TextLine = TextLine(body: string, ended: bool)

  /** How the redactor sees a line: outside a table, without any cell, all rules, or a row of cells. */
  datatype Parsed = Outside | NoCells | Rules(cells: seq<string>) | Row(cells: seq<string>)

  datatype Syntax = Syntax(
    parse: string -> Parsed,
    write: seq<string> -> string,
    isLabel: string -> bool,
    isDone: string -> bool) // nothing to hide: blank, or hidden already

  const REPLACEMENT := " [REDACTED] "

  function RedactedCells(cells: seq<string>, leaks: set<nat>): seq<string> {
    Replaced(cells, leaks, REPLACEMENT)
  }

  /** Printed rows read back, and the replacement is neither a label nor something to hide. */
  ghost predicate ReadsBack(x: Syntax) {
    && (forall body: string, leaks: set<nat> :: x.parse(body).Row? ==>
          x.parse(x.write(RedactedCells(x.parse(body).cells, leaks))) == Row(RedactedCells(x.parse(body).cells, leaks)))
    && !x.isLabel(REPLACEMENT) && x.isDone(REPLACEMENT)
  }

  function HeaderColumns(x: Syntax, cells: seq<string>): set<nat> {
    set i: nat | i < |cells| && x.isLabel(cells[i])
  }

  /** The secret columns in force after a line. */
  function SecretsAfterLine(x: Syntax, secrets: set<nat>, line: Parsed): set<nat> {
    match line
    case Outside => {}
    case NoCells => secrets
    case Rules(_) => secrets
    case Row(cells) =>
      var labels := HeaderColumns(x, cells);
      if labels != {} && !(|cells| == 2 && labels == {0}) then labels else secrets
  }

  function ActiveSecrets(x: Syntax, lines: seq<TextLine>, i: nat): set<nat>
    requires i <= |lines|
  {
    if i == 0 then {} else SecretsAfterLine(x, ActiveSecrets(x, lines, i - 1), x.parse(lines[i - 1].body))
  }

  /** The active columns, and the value beside the label of a two-column row. */
  function Targets(secrets: set<nat>, labels: set<nat>, width: nat): set<nat> {
    secrets + if width == 2 && 0 in labels && 1 !in labels then {1} else {}
  }

  predicate Harmless(x: Syntax, cell: string) {
    x.isLabel(cell) || x.isDone(cell)
  }

  /** The columns of a row whose cells are replaced. */
  function Leaks(x: Syntax, secrets: set<nat>, cells: seq<string>): set<nat> {
    var targets := Targets(secrets, HeaderColumns(x, cells), |cells|);
    set c: nat | c < |cells| && c in targets && !Harmless(x, cells[c])
  }

  function LeaksOfLine(x: Syntax, secrets: set<nat>, line: TextLine): set<nat> {
    var parsed := x.parse(line.body);
    if parsed.Row? then Leaks(x, secrets, parsed.cells) else {}
  }

  function RedactedLine(x: Syntax, secrets: set<nat>, line: TextLine): TextLine {
    var parsed := x.parse(line.body);
    if parsed.Row?
    then line.(body := x.write(RedactedCells(parsed.cells, Leaks(x, secrets, parsed.cells))))
    else line
  }

  function Redacted(x: Syntax, lines: seq<TextLine>): seq<TextLine> {
    seq(|lines|, i requires 0 <= i < |lines| => RedactedLine(x, ActiveSecrets(x, lines, i), lines[i]))
  }

  /** The number of categories the first `n` lines add. */
  function Findings(x: Syntax, lines: seq<TextLine>, n: nat): nat
    requires n <= |lines|
  {
    if n == 0 then 0
    else Findings(x, lines, n - 1) + |LeaksOfLine(x, ActiveSecrets(x, lines, n - 1), lines[n - 1])|
  }

  // ----- The code -----

  lemma LooksAtOneMore(cells: seq<string>, leaks: set<nat>, done: set<nat>, column: nat)
    requires column !in done
    ensures column in leaks && column < |cells| ==>
              RedactedCells(cells, leaks * (done + {column}))
              == RedactedCells(cells, leaks * done)[column := REPLACEMENT]
    ensures column in leaks ==> |leaks * (done + {column})| == |leaks * done| + 1
    ensures column !in leaks ==> leaks * (done + {column}) == leaks * done
  {
    if column in leaks {
      assert leaks * (done + {column}) == leaks * done + {column};
      ReplacesOneMore(cells, leaks * done, column, REPLACEMENT);
    } else {
      assert leaks * (done + {column}) == leaks * done;
    }
  }

  /** The inner loop over the target columns. */
  method RedactRow(x: Syntax, secrets: set<nat>, cells: seq<string>) returns (redacted: seq<string>, found: nat)
    ensures redacted == RedactedCells(cells, Leaks(x, secrets, cells))
    ensures found == |Leaks(x, secrets, cells)|
  {
    var labels := HeaderColumns(x, cells);
    var targets := Targets(secrets, labels, |cells|);
    ghost var leaks := Leaks(x, secrets, cells);
    redacted, found := cells, 0;
    var done: set<nat> := {};
    assert redacted == RedactedCells(cells, leaks * done);
    while done != targets
      invariant done <= targets
      invariant redacted == RedactedCells(cells, leaks * done) && found == |leaks * done|
      decreases |targets - done|
    {
      var column :| column in targets - done;
      LooksAtOneMore(cells, leaks, done, column);
      assert targets - (done + {column}) < targets - done;
      if column < |cells| && column !in labels && !x.isDone(redacted[column]) {
        redacted := redacted[column := REPLACEMENT];
        found := found + 1;
      }
      done := done + {column};
    }
    assert leaks * targets == leaks;
  }

  method RedactLine(x: Syntax, line: TextLine, secrets: set<nat>)
    returns (out: TextLine, after: set<nat>, found: nat)
    ensures out == RedactedLine(x, secrets, line)
    ensures after == SecretsAfterLine(x, secrets, x.parse(line.body))
    ensures found == |LeaksOfLine(x, secrets, line)|
  {
    out, after, found := line, secrets, 0;
    match x.parse(line.body)
    case Outside => after := {};
    case NoCells =>
    case Rules(_) =>
    case Row(cells) =>
      var labels := HeaderColumns(x, cells);
      var redacted;
      redacted, found := RedactRow(x, secrets, cells);
      if labels != {} && !(|cells| == 2 && labels == {0}) {
        after := labels;
      }
      out := line.(body := x.write(redacted));
  }

  method RedactTableText(x: Syntax, lines: seq<TextLine>) returns (out: seq<TextLine>, categories: nat)
    ensures out == Redacted(x, lines)
    ensures categories == Findings(x, lines, |lines|)
  {
    out, categories := lines, 0;
    var secrets: set<nat> := {};
    for i := 0 to |lines|
      invariant |out| == |lines| && secrets == ActiveSecrets(x, lines, i)
      invariant categories == Findings(x, lines, i)
      invariant forall k :: 0 <= k < |lines| ==> out[k] == if k < i then Redacted(x, lines)[k] else lines[k]
    {
      var line, found;
      line, secrets, found := RedactLine(x, lines[i], secrets);
      categories := categories + found;
      out := out[i := line];
    }
  }

  // ----- Redaction is stable -----

  lemma RedactedCellsAreStable(x: Syntax, secrets: set<nat>, cells: seq<string>)
    requires ReadsBack(x)
    ensures var redacted := RedactedCells(cells, Leaks(x, secrets, cells));
            && HeaderColumns(x, redacted) == HeaderColumns(x, cells)
            && Leaks(x, secrets, redacted) == {}
  {
    var redacted := RedactedCells(cells, Leaks(x, secrets, cells));
    forall c: nat | c < |cells| ensures x.isLabel(redacted[c]) == x.isLabel(cells[c]) {
    }
    assert HeaderColumns(x, redacted) == HeaderColumns(x, cells);
  }

  lemma RedactedLineIsStable(x: Syntax, secrets: set<nat>, line: TextLine)
    requires ReadsBack(x)
    ensures var once := RedactedLine(x, secrets, line);
            && RedactedLine(x, secrets, once) == once
            && LeaksOfLine(x, secrets, once) == {}
            && SecretsAfterLine(x, secrets, x.parse(once.body)) == SecretsAfterLine(x, secrets, x.parse(line.body))
            && x.parse(once.body).Row? == x.parse(line.body).Row?
  {
    var parsed := x.parse(line.body);
    if parsed.Row? {
      var leaks := Leaks(x, secrets, parsed.cells);
      var redacted := RedactedCells(parsed.cells, leaks);
      RedactedCellsAreStable(x, secrets, parsed.cells);
      assert x.parse(x.write(redacted)) == Row(redacted);
      assert RedactedCells(redacted, {}) == redacted;
    }
  }

  lemma {:induction false} RedactionKeepsSecretColumns(x: Syntax, lines: seq<TextLine>, i: nat)
    requires ReadsBack(x) && i <= |lines|
    ensures ActiveSecrets(x, Redacted(x, lines), i) == ActiveSecrets(x, lines, i)
  {
    if i > 0 {
      RedactionKeepsSecretColumns(x, lines, i - 1);
      RedactedLineIsStable(x, ActiveSecrets(x, lines, i - 1), lines[i - 1]);
    }
  }

  lemma NothingLeaksAt(x: Syntax, lines: seq<TextLine>, i: nat)
    requires ReadsBack(x) && i < |lines|
    ensures var out := Redacted(x, lines);
            && LeaksOfLine(x, ActiveSecrets(x, out, i), out[i]) == {}
            && RedactedLine(x, ActiveSecrets(x, out, i), out[i]) == out[i]
  {
    RedactionKeepsSecretColumns(x, lines, i);
    RedactedLineIsStable(x, ActiveSecrets(x, lines, i), lines[i]);
  }

  lemma {:induction false} NothingFound(x: Syntax, lines: seq<TextLine>, n: nat)
    requires n <= |lines|
    requires forall i :: 0 <= i < n ==> LeaksOfLine(x, ActiveSecrets(x, lines, i), lines[i]) == {}
    ensures Findings(x, lines, n) == 0
  {
    if n > 0 {
      NothingFound(x, lines, n - 1);
    }
  }

  /** Redacting again changes nothing and reports nothing. */
  lemma RedactionIsIdempotent(x: Syntax, lines: seq<TextLine>)
    requires ReadsBack(x)
    ensures Redacted(x, Redacted(x, lines)) == Redacted(x, lines)
    ensures Findings(x, Redacted(x, lines), |lines|) == 0
  {
    var once := Redacted(x, lines);
    forall i | 0 <= i < |lines|
      ensures Redacted(x, once)[i] == once[i] && LeaksOfLine(x, ActiveSecrets(x, once, i), once[i]) == {}
    {
      NothingLeaksAt(x, lines, i);
    }
    NothingFound(x, once, |lines|);
  }

  /**
    In the redacted text every cell of a row that lies in a secret column in force, or beside the label
    of a two-column row, is a label, blank, or hidden.
    */
  lemma NoSecretCellIsLeft(x: Syntax, lines: seq<TextLine>, i: nat, column: nat)
    requires ReadsBack(x) && i < |lines|
    requires var out := Redacted(x, lines);
             var row := x.parse(out[i].body);
             && row.Row? && column < |row.cells|
             && column in Targets(ActiveSecrets(x, out, i), HeaderColumns(x, row.cells), |row.cells|)
    ensures Harmless(x, x.parse(Redacted(x, lines)[i].body).cells[column])
  {
    var out := Redacted(x, lines);
    var cells := x.parse(out[i].body).cells;
    NothingLeaksAt(x, lines, i);
    assert column !in Leaks(x, ActiveSecrets(x, out, i), cells);
  }

  // ----- Pipe tables -----

  predicate IsEmphasis(c: char) {
    c == '*' || c == '`' || c == ' '
  }

  /** A cell's text without emphasis marks around it. */
  function Unemphasized(s: string): string {
    StripOff(s, IsEmphasis)
  }

  predicate AllDashes(s: string) {
    s != "" && forall i :: 0 <= i < |s| ==> s[i] == '-'
  }

  /** Without one colon at either end. */
  function Uncolon(s: string): string {
    var right := if s != "" && s[0] == ':' then s[1..] else s;
    if right != "" && right[|right| - 1] == ':' then right[..|right| - 1] else right
  }

  /** `:?-+:?` between whitespace. */
  predicate IsRule(cell: string) {
    AllDashes(Uncolon(Strip(cell)))
  }

  lemma NotARule(cell: string)
    requires Strip(cell) != "" && Strip(cell)[0] != ':' && Strip(cell)[0] != '-'
    requires Strip(cell)[|Strip(cell)| - 1] != ':'
    ensures !IsRule(cell)
  {
    assert Uncolon(Strip(cell)) == Strip(cell);
  }

  function ParseLine(body: string): Parsed {
    if LStrip(body) == "" || LStrip(body)[0] != '|' then Outside
    else
      var cells := CellsOf(body);
      if cells == [] then NoCells else if AllRules(cells) then Rules(cells) else Row(cells)
  }

  predicate AllRules(cells: seq<string>) {
    forall i :: 0 <= i < |cells| ==> IsRule(cells[i])
  }

  /** Pipe tables, with the given test for a secret label. */
  function PipeTables(secret: string -> bool): Syntax {
    Syntax(ParseLine, Joined, cell => secret(Unemphasized(Strip(cell))),
           cell => Strip(cell) == "" || Strip(cell) == REDACTED)
  }

  lemma ReplacementFacts()
    ensures Strip(REPLACEMENT) == REDACTED && Unemphasized(REDACTED) == REDACTED && !IsRule(REPLACEMENT)
  {
    var hidden: string :| hidden == REDACTED;
    assert hidden[0] == '[' && hidden[|hidden| - 1] == ']';
    StripPadded(hidden);
    assert " " + hidden + " " == REPLACEMENT;
    assert Unemphasized(hidden) == hidden;
    NotARule(REPLACEMENT);
  }

  lemma ReplacementIsCell()
    ensures IsCell(REPLACEMENT)
  {
    var nothing: string :| nothing == "";
    var text: string :| text == REPLACEMENT;
    PlainIsUncut(nothing, text);
    assert nothing + text == text;
    assert text[|text| - 1] == ' ';
  }

  lemma RedactedAreCells(cells: seq<string>, leaks: set<nat>)
    requires forall c <- cells :: IsCell(c)
    ensures forall c <- RedactedCells(cells, leaks) :: IsCell(c)
  {
    ReplacementIsCell();
    forall c | c in RedactedCells(cells, leaks) ensures IsCell(c) {
      var i :| 0 <= i < |cells| && c == RedactedCells(cells, leaks)[i];
      assert cells[i] in cells;
    }
  }

  lemma PipeRowReadsBack(body: string, leaks: set<nat>)
    requires ParseLine(body).Row?
    ensures var redacted := RedactedCells(ParseLine(body).cells, leaks);
            ParseLine(Joined(redacted)) == Row(redacted)
  {
    var cells := CellsOf(body);
    var redacted := RedactedCells(cells, leaks);
    CellsOfAreCells(body);
    RedactedAreCells(cells, leaks);
    CellsOfJoined(redacted);
    StripJoined(redacted);
    var k :| 0 <= k < |cells| && !IsRule(cells[k]);
    ReplacementFacts();
    assert !IsRule(redacted[k]);
  }

  /** Pipe tables read back, so all of the above holds of them, unless the replacement itself counts as a label. */
  lemma PipeTablesReadBack(secret: string -> bool)
    ensures ReadsBack(PipeTables(secret)) <==> !secret(REDACTED)
  {
    var x := PipeTables(secret);
    ReplacementFacts();
    forall body: string, leaks: set<nat> | x.parse(body).Row?
      ensures x.parse(x.write(RedactedCells(x.parse(body).cells, leaks)))
              == Row(RedactedCells(x.parse(body).cells, leaks))
    {
      PipeRowReadsBack(body, leaks);
    }
  }

  /** `NoSecretCellIsLeft` spelled out for pipe tables: empty, a label, or the replacement text. */
  lemma NoPipeTableSecretIsLeft(secret: string -> bool, lines: seq<TextLine>, i: nat, column: nat)
    requires !secret(REDACTED) && i < |lines|
    requires var x := PipeTables(secret);
             var out := Redacted(x, lines);
             var row := ParseLine(out[i].body);
             && row.Row? && column < |row.cells|
             && column in Targets(ActiveSecrets(x, out, i), HeaderColumns(x, row.cells), |row.cells|)
    ensures var cell := ParseLine(Redacted(PipeTables(secret), lines)[i].body).cells[column];
            Strip(cell) == "" || Strip(cell) == REDACTED || secret(Unemphasized(Strip(cell)))
  {
    PipeTablesReadBack(secret);
    NoSecretCellIsLeft(PipeTables(secret), lines, i, column);
  }

  predicate InTable(body: string) {
    LStrip(body) != "" && LStrip(body)[0] == '|'
  }

  /**
    Cell by cell, for every table line: a cell of a secret column in force, or beside the label of a
    two-column row, that has something to hide is replaced, unless every cell of its row matches the rule
    pattern; then, and only then, it is left as it is.
    */
  lemma SurvivesIffAllRules(secret: string -> bool, lines: seq<TextLine>, i: nat, c: nat)
    requires !secret(REDACTED) && i < |lines| && InTable(lines[i].body)
    requires var x, cells := PipeTables(secret), CellsOf(lines[i].body);
             && c < |cells|
             && c in Targets(ActiveSecrets(x, lines, i), HeaderColumns(x, cells), |cells|)
             && !Harmless(x, cells[c])
    ensures var cells, kept := CellsOf(lines[i].body), CellsOf(Redacted(PipeTables(secret), lines)[i].body);
            && |kept| == |cells|
            && kept[c] == (if AllRules(cells) then cells[c] else REPLACEMENT)
            && (kept[c] == cells[c] <==> AllRules(cells))
  {
    var x, cells := PipeTables(secret), CellsOf(lines[i].body);
    ReplacementFacts();
    if !AllRules(cells) {
      var leaks := Leaks(x, ActiveSecrets(x, lines, i), cells);
      CellsOfAreCells(lines[i].body);
      RedactedAreCells(cells, leaks);
      CellsOfJoined(RedactedCells(cells, leaks));
    }
  }

  /** A cell with spaces around a text, as the printer writes it. */
  function Boxed(text: string): string {
    " " + text + " "
  }

  lemma BoxedIsCell(text: string)
    requires Trimmed(text) && forall k :: 0 <= k < |text| ==> text[k] != '|'
    ensures IsCell(Boxed(text)) && Strip(Boxed(text)) == text
  {
    StripPadded(text);
    PlainTextIsUncut(Boxed(text));
  }

  /** A text that can stand in a cell and is looked up as it is. */
  predicate Plain(text: string) {
    Trimmed(text) && Unemphasized(text) == text && forall k :: 0 <= k < |text| ==> text[k] != '|'
  }

  /** A header of two columns, and a row with the same value in both. */
  function Announced(first: string, name: string, value: string): seq<TextLine> {
    [TextLine(Joined([Boxed(first), Boxed(name)]), true), TextLine(Joined([Boxed(value), Boxed(value)]), true)]
  }

  /**
    The failing input: below a header that announces a secret column, a value of nothing but dashes beside
    another such value is left in the redacted text, although it is no label, not blank and not hidden.
    */
  lemma DashedSecretIsLeft(secret: string -> bool, first: string, name: string, dashes: string)
    requires Plain(first) && Plain(name) && !secret(first) && secret(name) && !IsRule(Boxed(name))
    requires AllDashes(dashes) && !secret(dashes)
    ensures var x, lines := PipeTables(secret), Announced(first, name, dashes);
            && 1 in ActiveSecrets(x, lines, 1)
            && Redacted(x, lines)[1] == lines[1]
            && CellsOf(lines[1].body) == [Boxed(dashes), Boxed(dashes)]
            && !Harmless(x, Boxed(dashes))
  {
    var x, lines := PipeTables(secret), Announced(first, name, dashes);
    HeaderAnnounces(secret, first, name);
    assert ActiveSecrets(x, lines, 1) == SecretsAfterLine(x, {}, x.parse(lines[0].body));
    DashedRow(secret, dashes);
    assert Redacted(x, lines)[1] == RedactedLine(x, ActiveSecrets(x, lines, 1), lines[1]);
  }

  lemma DashedRow(secret: string -> bool, dashes: string)
    requires AllDashes(dashes) && !secret(dashes)
    ensures var cells := [Boxed(dashes), Boxed(dashes)];
            ParseLine(Joined(cells)) == Rules(cells) && CellsOf(Joined(cells)) == cells
    ensures !Harmless(PipeTables(secret), Boxed(dashes))
  {
    var cells := [Boxed(dashes), Boxed(dashes)];
    RuleCell(dashes);
    BoxedIsCell(dashes);
    CellsOfJoined(cells);
    StripJoined(cells);
    DashesStayTrimmed(dashes);
  }

  lemma HeaderAnnounces(secret: string -> bool, first: string, name: string)
    requires Plain(first) && Plain(name) && !secret(first) && secret(name) && !IsRule(Boxed(name))
    ensures var x := PipeTables(secret);
            SecretsAfterLine(x, {}, x.parse(Joined([Boxed(first), Boxed(name)]))) == {1}
  {
    var x := PipeTables(secret);
    var cells := [Boxed(first), Boxed(name)];
    BoxedIsCell(first);
    BoxedIsCell(name);
    CellsOfJoined(cells);
    StripJoined(cells);
    assert cells[1] == Boxed(name) && !AllRules(cells);
    assert x.parse(Joined(cells)) == Row(cells);
    assert x.isLabel(cells[1]) && !x.isLabel(cells[0]);
    assert HeaderColumns(x, cells) == {1};
  }

  lemma RuleCell(dashes: string)
    requires AllDashes(dashes)
    ensures IsRule(Boxed(dashes)) && Trimmed(dashes) && forall k :: 0 <= k < |dashes| ==> dashes[k] != '|'
  {
    StripPadded(dashes);
  }

  lemma DashesStayTrimmed(dashes: string)
    requires AllDashes(dashes)
    ensures Unemphasized(dashes) == dashes && dashes != REDACTED
  {
    assert dashes[0] == '-' && REDACTED[0] == '[';
  }

  lemma LettersArePlain(text: string)
    requires text != "" && forall k :: 0 <= k < |text| ==> 'a' <= text[k] <= 'z'
    ensures Plain(text) && !IsRule(Boxed(text))
  {
    StripPadded(text);
    NotARule(Boxed(text));
  }

  /** Such as: a password of dashes. */
  lemma DashedPasswordIsLeft(first: string, name: string, dashes: string)
    returns (secret: string -> bool, lines: seq<TextLine>)
    requires first == "id" && name == "password" && dashes == "---"
    ensures forall s: string :: secret(s) <==> s == name
    ensures lines == Announced(first, name, dashes) && 1 in ActiveSecrets(PipeTables(secret), lines, 1)
    ensures Redacted(PipeTables(secret), lines)[1] == lines[1]
    ensures CellsOf(lines[1].body) == [Boxed(dashes), Boxed(dashes)]
  {
    secret := s => s == name;
    LettersArePlain(first);
    LettersArePlain(name);
    DashedSecretIsLeft(secret, first, name, dashes);
    lines := Announced(first, name, dashes);
  }

  // ----- Text in no cell -----

  /** What stands after the last unescaped pipe of a table line. */
  function TextInNoCell(body: string): string {
    var pieces := Split(Strip(body));
    pieces[|pieces| - 1]
  }

  /**
    Text after the last pipe of a table line is in no cell and so in no column.  If there is any, it is left
    in the redacted line exactly when the line has no cells, or all of them match the rule pattern.
    */
  lemma TextInNoCellIsKeptIff(secret: string -> bool, lines: seq<TextLine>, i: nat)
    requires i < |lines| && InTable(lines[i].body) && TextInNoCell(lines[i].body) != ""
    ensures var cells := CellsOf(lines[i].body);
            TextInNoCell(Redacted(PipeTables(secret), lines)[i].body) == TextInNoCell(lines[i].body)
            <==> cells == [] || AllRules(cells)
  {
    var x, cells := PipeTables(secret), CellsOf(lines[i].body);
    if cells != [] && !AllRules(cells) {
      var kept := RedactedCells(cells, Leaks(x, ActiveSecrets(x, lines, i), cells));
      CellsOfAreCells(lines[i].body);
      RedactedAreCells(cells, Leaks(x, ActiveSecrets(x, lines, i), cells));
      SplitJoined(kept);
      StripJoined(kept);
      assert Redacted(x, lines)[i].body == Joined(kept);
    }
  }

  /** A text that can stand after the last pipe, with nothing to strip. */
  predicate Plainly(text: string) {
    (text != "" ==> !IsSpace(text[|text| - 1])) && forall k :: 0 <= k < |text| ==> text[k] != '|'
  }

  lemma StripAfterCells(cells: seq<string>, text: string)
    requires Plainly(text)
    ensures var body := Joined(cells) + text;
            Strip(body) == body && InTable(body)
  {
    ClosedEnds(cells);
    var body := Joined(cells) + text;
    assert !IsSpace(body[|body| - 1]);
  }

  lemma SplitAfterCells(cells: seq<string>, text: string)
    requires (forall c <- cells :: IsCell(c)) && Split(text) == [text]
    ensures Split(Joined(cells) + text) == [""] + (cells + [text])
  {
    SplitClosed(cells, text);
    SplitAfterPipe(Closed(cells) + text);
    assert Joined(cells) + text == "|" + (Closed(cells) + text);
  }

  lemma InnerPieces(cells: seq<string>, text: string)
    ensures var pieces := [""] + (cells + [text]);
            pieces[1..|pieces| - 1] == cells && pieces[|pieces| - 1] == text
  {
  }

  /** Cells between pipes, and a text without pipes after them, are found where they stand. */
  lemma TextAfterCells(cells: seq<string>, text: string)
    requires (forall c <- cells :: IsCell(c)) && Plainly(text)
    ensures var body := Joined(cells) + text;
            InTable(body) && CellsOf(body) == cells && TextInNoCell(body) == text
  {
    PlainTextIsUncut(text);
    StripAfterCells(cells, text);
    SplitAfterCells(cells, text);
    InnerPieces(cells, text);
  }

  /** Text after a single pipe, or after cells that are all rules, is left as it is under any header. */
  lemma TextInNoCellIsKept(secret: string -> bool, lines: seq<TextLine>, i: nat, cells: seq<string>, text: string)
    requires i < |lines| && lines[i].body == Joined(cells) + text
    requires (forall c <- cells :: IsCell(c)) && AllRules(cells) && Plainly(text)
    ensures CellsOf(lines[i].body) == cells && TextInNoCell(lines[i].body) == text
    ensures Redacted(PipeTables(secret), lines)[i] == lines[i]
  {
    TextAfterCells(cells, text);
  }

  lemma TextAfterPipeIsKept(secret: string -> bool, lines: seq<TextLine>, i: nat, text: string)
    requires Plainly(text) && i < |lines| && lines[i].body == "|" + text
    ensures TextInNoCell(lines[i].body) == text && CellsOf(lines[i].body) == []
    ensures Redacted(PipeTables(secret), lines)[i] == lines[i]
  {
    var none: seq<string> :| none == [];
    assert Joined(none) == "|";
    TextInNoCellIsKept(secret, lines, i, none, text);
  }

  lemma OneCell(one: seq<string>, rule: string, text: string)
    requires one == [rule]
    ensures Joined(one) + text == "|" + rule + "|" + text
  {
    assert Closed(one) == rule + "|" + Closed(one[1..]);
  }

  lemma TextAfterRuleIsKept(secret: string -> bool, lines: seq<TextLine>, i: nat, rule: string, text: string)
    requires IsCell(rule) && IsRule(rule)
    requires Plainly(text) && i < |lines| && lines[i].body == "|" + rule + "|" + text
    ensures TextInNoCell(lines[i].body) == text && CellsOf(lines[i].body) == [rule]
    ensures Redacted(PipeTables(secret), lines)[i] == lines[i]
  {
    var one: seq<string> :| one == [rule];
    OneCell(one, rule, text);
    TextInNoCellIsKept(secret, lines, i, one, text);
  }

  lemma DashIsARule(rule: string)
    requires rule == "-"
    ensures IsCell(rule) && IsRule(rule)
  {
    PlainTextIsUncut(rule);
    StripTrimmed(rule);
    assert Uncolon(rule) == rule;
  }

  lemma PasswordIsPlain(password: string)
    requires password == " hunter2"
    ensures Plainly(password)
  {
  }

  /** Such as: a password. */
  lemma PasswordInNoCellIsKept(secret: string -> bool, lines: seq<TextLine>, rule: string, password: string)
    requires rule == "-" && password == " hunter2"
    requires |lines| == 2 && lines[0].body == "|" + password && lines[1].body == "|" + rule + "|" + password
    ensures TextInNoCell(lines[0].body) == password && CellsOf(lines[0].body) == []
    ensures TextInNoCell(lines[1].body) == password && CellsOf(lines[1].body) == [rule]
    ensures Redacted(PipeTables(secret), lines) == lines
  {
    DashIsARule(rule);
    PasswordIsPlain(password);
    TextAfterPipeIsKept(secret, lines, 0, password);
    TextAfterRuleIsKept(secret, lines, 1, rule, password);
  }

  // ----- What redaction leaves alone -----

  /** Cells that have nothing to hide, or are in no secret column, keep their text exactly. */
  lemma OtherCellsAreKept(secret: string -> bool, lines: seq<TextLine>, i: nat, c: nat)
    requires i < |lines| && ParseLine(lines[i].body).Row? && c < |CellsOf(lines[i].body)|
    requires c !in Leaks(PipeTables(secret), ActiveSecrets(PipeTables(secret), lines, i), CellsOf(lines[i].body))
    ensures var kept := CellsOf(Redacted(PipeTables(secret), lines)[i].body);
            |kept| == |CellsOf(lines[i].body)| && kept[c] == CellsOf(lines[i].body)[c]
  {
    var x, cells := PipeTables(secret), CellsOf(lines[i].body);
    var leaks := Leaks(x, ActiveSecrets(x, lines, i), cells);
    CellsOfAreCells(lines[i].body);
    RedactedAreCells(cells, leaks);
    CellsOfJoined(RedactedCells(cells, leaks));
  }

  /** A line that is nothing but cells between pipes. */
  ghost predicate Exactly(body: string) {
    exists cells: seq<string> :: (forall c <- cells :: IsCell(c)) && body == Joined(cells)
  }

  /**
    A row is kept character by character exactly when nothing in it leaks and it is nothing but cells between
    pipes: indentation, and text after the last unescaped pipe, are dropped.
    */
  lemma RowIsKeptIff(secret: string -> bool, lines: seq<TextLine>, i: nat)
    requires i < |lines| && ParseLine(lines[i].body).Row?
    ensures var x := PipeTables(secret);
            Redacted(x, lines)[i] == lines[i] <==>
              Leaks(x, ActiveSecrets(x, lines, i), CellsOf(lines[i].body)) == {} && Exactly(lines[i].body)
  {
    var x, body, cells := PipeTables(secret), lines[i].body, CellsOf(lines[i].body);
    var leaks := Leaks(x, ActiveSecrets(x, lines, i), cells);
    CellsOfAreCells(body);
    RedactedAreCells(cells, leaks);
    CellsOfJoined(RedactedCells(cells, leaks));
    if Redacted(x, lines)[i] == lines[i] {
      assert body == Joined(RedactedCells(cells, leaks));
      LeaksAreChanged(secret, ActiveSecrets(x, lines, i), cells);
    }
    if leaks == {} && Exactly(body) {
      var parts: seq<string> :| (forall c <- parts :: IsCell(c)) && body == Joined(parts);
      CellsOfJoined(parts);
      assert RedactedCells(cells, leaks) == cells;
    }
  }

  lemma LeaksAreChanged(secret: string -> bool, secrets: set<nat>, cells: seq<string>)
    ensures var x := PipeTables(secret);
            var leaks := Leaks(x, secrets, cells);
            RedactedCells(cells, leaks) == cells ==> leaks == {}
  {
    ReplacementFacts();
    var x := PipeTables(secret);
    var leaks := Leaks(x, secrets, cells);
    forall c | c in leaks ensures RedactedCells(cells, leaks)[c] != cells[c] {
    }
  }
}
