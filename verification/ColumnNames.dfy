/** Spreadsheet column names: bijective base 26 (`_spreadsheet_column_name`). */
module ColumnNames {

  function Letter(n: nat): char
    requires n < 26
  {
    'A' + n as char
  }

  predicate IsLetter(c: char) {
    'A' <= c <= 'Z'
  }

  predicate IsName(s: string) {
    s != "" && forall c <- s :: IsLetter(c)
  }

  /** The letters of a positive number, most significant first; nothing for zero. */
  function Letters(value: nat): (s: string)
    ensures forall c <- s :: IsLetter(c)
    ensures s == "" <==> value == 0
  {
    if value == 0 then "" else Letters((value - 1) / 26) + [Letter((value - 1) % 26)]
  }

  function Digit(c: char): (n: nat)
    requires IsLetter(c)
    ensures n < 26 && Letter(n) == c
  {
    c as int - 'A' as int
  }

  function Number(s: string): nat
    requires forall c <- s :: IsLetter(c)
  {
    if s == "" then 0 else Number(s[..|s| - 1]) * 26 + Digit(s[|s| - 1]) + 1
  }

  method SpreadsheetColumnName(index: nat) returns (result: string)
    ensures IsName(result) && Number(result) == index + 1
  {
    var value: nat := index + 1;
    result := "";
    while value != 0
      invariant Letters(index + 1) == Letters(value) + result
    {
      var quotient, remainder := (value - 1) / 26, (value - 1) % 26;
      assert Letters(value) + result == Letters(quotient) + ([Letter(remainder)] + result);
      value := quotient;
      result := [Letter(remainder)] + result;
    }
    assert result == Letters(index + 1);
    NumberOfLetters(index + 1);
  }

  /** Reading back what was written gives the column: no two columns share a name. */
  lemma {:induction false} NumberOfLetters(value: nat)
    ensures Number(Letters(value)) == value
  {
    if value != 0 {
      NumberOfLetters((value - 1) / 26);
      assert Letters(value)[..|Letters(value)| - 1] == Letters((value - 1) / 26);
    }
  }

  /** Writing what was read gives the name: every name of letters is the name of a column. */
  lemma {:induction false} LettersOfNumber(s: string)
    requires forall c <- s :: IsLetter(c)
    ensures Letters(Number(s)) == s
  {
    if s != "" {
      var head, last := s[..|s| - 1], s[|s| - 1];
      LettersOfNumber(head);
      assert Number(s) - 1 == Number(head) * 26 + Digit(last);
      assert s == head + [last];
    }
  }

  /** So the name of a column is the only name with its number. */
  lemma NamesAreUnique(a: string, b: string)
    requires IsName(a) && IsName(b) && Number(a) == Number(b)
    ensures a == b
  {
    LettersOfNumber(a);
    LettersOfNumber(b);
  }
}
