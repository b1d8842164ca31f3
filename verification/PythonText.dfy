/** Whitespace and stripping as Python's `str` defines them. */
module PythonText {

  /** The characters Python's `strip` and `\s` treat as whitespace. */
  predicate IsSpace(c: char) {
    || '\t' <= c <= '\r' || '\U{1c}' <= c <= '\U{20}' || c == '\U{85}' || c == '\U{a0}' || c == '\U{1680}'
    || '\U{2000}' <= c <= '\U{200a}' || c == '\U{2028}' || c == '\U{2029}' || c == '\U{202f}' || c == '\U{205f}'
    || c == '\U{3000}'
  }

  predicate IsDigit(c: char) {
    '0' <= c <= '9'
  }

  /** `strip` with the characters to take off both ends. */
  function StripOff(s: string, off: char -> bool): string {
    if s != "" && off(s[0]) then StripOff(s[1..], off)
    else if s != "" && off(s[|s| - 1]) then StripOff(s[..|s| - 1], off)
    else s
  }

  /** Every run of whitespace becomes one space. */
  function Collapse(s: string): string {
    if s == "" then ""
    else if !IsSpace(s[0]) then [s[0]] + Collapse(s[1..])
    else if |s| > 1 && IsSpace(s[1]) then Collapse(s[1..])
    else " " + Collapse(s[1..])
  }

  function LStrip(s: string): string {
    if s != "" && IsSpace(s[0]) then LStrip(s[1..]) else s
  }

  function RStrip(s: string): string {
    if s != "" && IsSpace(s[|s| - 1]) then RStrip(s[..|s| - 1]) else s
  }

  function Strip(s: string): string {
    RStrip(LStrip(s))
  }

  predicate Trimmed(s: string) {
    s != "" ==> !IsSpace(s[0]) && !IsSpace(s[|s| - 1])
  }

  lemma {:induction false} LStripTrims(s: string)
    ensures LStrip(s) != "" ==> !IsSpace(LStrip(s)[0])
    ensures LStrip(s) != "" ==> LStrip(s)[|LStrip(s)| - 1] == s[|s| - 1]
    ensures forall c <- LStrip(s) :: c in s
  {
    if s != "" && IsSpace(s[0]) {
      LStripTrims(s[1..]);
    }
  }

  lemma {:induction false} RStripTrims(s: string)
    ensures RStrip(s) != "" ==> !IsSpace(RStrip(s)[|RStrip(s)| - 1])
    ensures RStrip(s) <= s
  {
    if s != "" && IsSpace(s[|s| - 1]) {
      RStripTrims(s[..|s| - 1]);
    }
  }

  lemma StripTrims(s: string)
    ensures Trimmed(Strip(s))
    ensures forall c <- Strip(s) :: c in s
  {
    LStripTrims(s);
    RStripTrims(LStrip(s));
  }

  lemma StripTrimmed(s: string)
    requires Trimmed(s)
    ensures Strip(s) == s
  {
  }

  lemma StripPadded(s: string)
    requires Trimmed(s)
    ensures Strip(" " + s + " ") == s
  {
    var padded := " " + s + " ";
    assert padded[1..] == s + " ";
    if s == "" {
      assert LStrip(padded) == LStrip(" ") == LStrip("");
    } else {
      assert LStrip(padded) == LStrip(s + " ") == s + " ";
      assert (s + " ")[..|s|] == s;
      assert RStrip(s + " ") == RStrip(s) == s;
    }
  }
}
