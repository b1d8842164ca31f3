/**
  How a workflow's date text is rendered for the public and read as a day: by the history query
  (agentbridge/adapters/seeyon_history_query.py) from the raw text, and by the listing
  (agentbridge/adapters/seeyon_central.py) from the rendered one.
  */
module DateTexts {
  import opened Options
  import opened PythonText
  import opened HistoryQuery

  /**
    What the readers use but do not define: `decode` turns a text that starts with an ampersand into plain
    text, `iso` reads the compact and week forms of ISO 8601, and `decimals` holds the decimal digits beyond
    ASCII with their values.
    */
  datatype Reading = Reading(decode: string -> string, iso: string -> Option<Day>, decimals: map<char, nat>)

  // ----- Rendering -----

  /** Entities replaced: nothing happens before the first ampersand. */
  function Decoded(r: Reading, s: string): string {
    if s == "" then "" else if s[0] == '&' then r.decode(s) else [s[0]] + Decoded(r, s[1..])
  }

  function Rendered(r: Reading, s: string): string {
    Strip(Collapse(Decoded(r, s)))
  }

  predicate Plain(s: string) {
    forall c <- s :: !IsSpace(c) && c != '&'
  }

  /** `t` starts with the first `n` characters of `s`, and is no longer than them if `s` is not. */
  predicate KeepsLead(s: string, t: string, n: nat) {
    n <= |s| && s[..n] <= t && (n == |s| ==> t == s)
  }

  lemma {:induction false} DecodingKeepsLead(r: Reading, s: string, n: nat)
    requires n <= |s| && Plain(s[..n])
    ensures KeepsLead(s, Decoded(r, s), n)
  {
    if n > 0 {
      assert s[0] in s[..n] && s[..n][1..] == s[1..][..n - 1];
      DecodingKeepsLead(r, s[1..], n - 1);
      assert [s[0]] + s[1..][..n - 1] == s[..n];
    }
  }

  lemma {:induction false} CollapsingKeepsLead(s: string, n: nat)
    requires n <= |s| && Plain(s[..n])
    ensures KeepsLead(s, Collapse(s), n)
  {
    if n > 0 {
      assert s[0] in s[..n] && s[..n][1..] == s[1..][..n - 1];
      CollapsingKeepsLead(s[1..], n - 1);
      assert [s[0]] + s[1..][..n - 1] == s[..n];
    }
  }

  lemma {:induction false} RStripKeepsLead(s: string, n: nat)
    requires 0 < n <= |s| && !IsSpace(s[n - 1])
    ensures KeepsLead(s, RStrip(s), n)
  {
    if IsSpace(s[|s| - 1]) {
      RStripKeepsLead(s[..|s| - 1], n);
      assert s[..|s| - 1][..n] == s[..n];
    }
  }

  /** Rendering keeps a text as far as it starts with neither whitespace nor entities. */
  lemma RenderingKeepsLead(r: Reading, s: string, n: nat)
    requires 0 < n <= |s| && Plain(s[..n])
    ensures KeepsLead(s, Rendered(r, s), n)
  {
    var decoded := Decoded(r, s);
    DecodingKeepsLead(r, s, n);
    assert decoded[..n] == s[..n];
    CollapsingKeepsLead(decoded, n);
    var collapsed := Collapse(decoded);
    assert collapsed[..n] == s[..n];
    assert collapsed[0] == s[..n][0] && collapsed[n - 1] == s[..n][n - 1];
    assert s[..n][0] in s[..n] && s[..n][n - 1] in s[..n];
    assert LStrip(collapsed) == collapsed;
    RStripKeepsLead(collapsed, n);
  }

  // ----- Reading -----

  predicate IsDecimal(decimals: map<char, nat>, c: char) {
    IsDigit(c) || (c >= '\U{80}' && c in decimals)
  }

  function Digit(decimals: map<char, nat>, c: char): nat
    requires IsDecimal(decimals, c)
  {
    if IsDigit(c) then c as nat - '0' as nat else decimals[c]
  }

  /** `dddd-dd-dd` stands at `i`. */
  predicate DateAt(decimals: map<char, nat>, s: string, i: nat) {
    && i + 10 <= |s|
    && (forall k :: i <= k < i + 10 ==> if k == i + 4 || k == i + 7 then s[k] == '-' else IsDecimal(decimals, s[k]))
  }

  function DaysIn(year: nat, month: nat): nat {
    if month == 2 then if year % 4 == 0 && (year % 100 != 0 || year % 400 == 0) then 29 else 28
    else if month in {4, 6, 9, 11} then 30
    else 31
  }

  /** The day a calendar gives for year, month and day, if it has one; days are ordered as their numbers. */
  function CalendarDay(year: nat, month: nat, day: nat): Option<Day> {
    if 1 <= year <= 9999 && 1 <= month <= 12 && 1 <= day <= DaysIn(year, month)
    then Some(year * 10000 + month * 100 + day)
    else None
  }

  function Two(decimals: map<char, nat>, s: string, i: nat): nat
    requires i + 2 <= |s| && IsDecimal(decimals, s[i]) && IsDecimal(decimals, s[i + 1])
  {
    Digit(decimals, s[i]) * 10 + Digit(decimals, s[i + 1])
  }

  function DayAt(decimals: map<char, nat>, s: string, i: nat): Option<Day>
    requires DateAt(decimals, s, i)
  {
    CalendarDay(Two(decimals, s, i) * 100 + Two(decimals, s, i + 2), Two(decimals, s, i + 5), Two(decimals, s, i + 8))
  }

  /** What `date.fromisoformat` may accept at all: seven to ten digits, hyphens and week marks. */
  predicate IsoShaped(s: string) {
    7 <= |s| <= 10 && forall c <- s :: IsDigit(c) || c == '-' || c == 'W'
  }

  /** How the query reads a date: the first ten characters, whatever follows. */
  function QueryDay(r: Reading, s: string): Option<Day> {
    var lead := s[.. if |s| < 10 then |s| else 10];
    if !IsoShaped(lead) then None
    else if DateAt(map[], lead, 0) then DayAt(map[], lead, 0)
    else r.iso(lead)
  }

  predicate StandaloneAt(r: Reading, s: string, i: nat) {
    && DateAt(r.decimals, s, i)
    && (i > 0 ==> !IsDecimal(r.decimals, s[i - 1]))
    && (i + 10 < |s| ==> !IsDecimal(r.decimals, s[i + 10]))
  }

  /** How the listing reads a date: the first one from `i` on with no digit before or after it. */
  function StandaloneDay(r: Reading, s: string, i: nat): Option<Day>
    decreases |s| - i
  {
    if i >= |s| then None
    else if StandaloneAt(r, s, i) then DayAt(r.decimals, s, i)
    else StandaloneDay(r, s, i + 1)
  }

  function ListingDay(r: Reading, s: string): Option<Day> {
    StandaloneDay(r, s, 0)
  }

  /** The text starts with a date that no digit follows. */
  predicate Leads(r: Reading, s: string) {
    DateAt(r.decimals, s, 0) && (|s| == 10 || !IsDecimal(r.decimals, s[10]))
  }

  lemma SameLeadSameDay(decimals: map<char, nat>, lead: string, shown: string)
    requires IsoShaped(lead) && |lead| == 10 && lead <= shown && DateAt(decimals, shown, 0)
    ensures DateAt(map[], lead, 0) && DayAt(decimals, shown, 0) == DayAt(map[], lead, 0)
  {
    forall k | 0 <= k < 10
      ensures shown[k] == lead[k] && (IsDecimal(decimals, shown[k]) ==> IsDigit(lead[k]))
    {
      assert lead[k] in lead;
    }
  }

  lemma LeadingDateIsQueryDay(r: Reading, s: string)
    requires QueryDay(r, s).Some? && DateAt(r.decimals, Rendered(r, s), 0)
    ensures DayAt(r.decimals, Rendered(r, s), 0) == QueryDay(r, s)
  {
    var n := if |s| < 10 then |s| else 10;
    var lead, shown := s[..n], Rendered(r, s);
    RenderingKeepsLead(r, s, n);
    SameLeadSameDay(r.decimals, lead, shown);
  }

  /**
    A date text that the query can read.  The listing reads the same day from its rendering if that starts
    with a date that no digit follows, and otherwise the first standalone date after its first character.
    */
  lemma ReadersAgreeOnLeadingDates(r: Reading, s: string)
    requires QueryDay(r, s).Some?
    ensures var shown := Rendered(r, s);
            ListingDay(r, shown) == if Leads(r, shown) then QueryDay(r, s) else StandaloneDay(r, shown, 1)
  {
    if Leads(r, Rendered(r, s)) {
      LeadingDateIsQueryDay(r, s);
    }
  }

  lemma {:induction false} FirstStandalone(r: Reading, s: string, i: nat, j: nat)
    requires i <= j < |s| && StandaloneAt(r, s, j) && forall k :: i <= k < j ==> !StandaloneAt(r, s, k)
    ensures StandaloneDay(r, s, i) == DayAt(r.decimals, s, j)
    decreases j - i
  {
    if i < j {
      FirstStandalone(r, s, i + 1, j);
    }
  }

  lemma OnlyTheTailStandsAlone(r: Reading, s: string, k: nat)
    requires |s| == 22 && (forall i :: 12 <= i < 22 ==> if i == 16 || i == 19 then s[i] == '-' else IsDigit(s[i]))
    requires IsDigit(s[8]) && IsDigit(s[9]) && IsDigit(s[10]) && s[11] == '/' && k <= 12
    ensures StandaloneAt(r, s, k) <==> k == 12
  {
    if k < 12 && DateAt(r.decimals, s, k) {
      assert s[k + 4] == '-' && s[k + 7] == '-';
    }
  }

  /** One digit between a date and a slash with another date: the query reads the first, the listing the second. */
  lemma ReadersDisagree(r: Reading, lead: string, digit: char, tail: string)
    requires |lead| == 10 && DateAt(map[], lead, 0) && DayAt(map[], lead, 0).Some? && IsDigit(digit)
    requires |tail| == 10 && DateAt(map[], tail, 0)
    ensures var s := lead + [digit, '/'] + tail;
            && Rendered(r, s) == s
            && QueryDay(r, s) == DayAt(map[], lead, 0) && ListingDay(r, s) == DayAt(map[], tail, 0)
  {
    var s := lead + [digit, '/'] + tail;
    forall c | c in s ensures IsDigit(c) || c == '-' || c == '/' {
      var k :| 0 <= k < |s| && s[k] == c;
    }
    assert s[..|s|] == s && s[..10] == lead;
    RenderingKeepsLead(r, s, |s|);
    assert forall k :: 12 <= k < 22 ==> s[k] == tail[k - 12];
    forall k: nat | k <= 12 ensures StandaloneAt(r, s, k) <==> k == 12 {
      OnlyTheTailStandsAlone(r, s, k);
    }
    FirstStandalone(r, s, 0, 12);
  }
}
