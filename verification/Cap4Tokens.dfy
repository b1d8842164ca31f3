/**
  Locating whitespace-separated tokens in CAP4 text with a moving `find`, and giving each field the
  section it stands in (agentbridge/adapters/seeyon_home.py).
  */
module Cap4Tokens {
  import opened Options
  import opened PythonText

  // ----- Where the words are -----

  function SkipSpaces(s: string, i: nat): (j: nat)
    requires i <= |s|
    ensures i <= j <= |s|
    ensures j < |s| ==> !IsSpace(s[j])
    decreases |s| - i
  {
    if i < |s| && IsSpace(s[i]) then SkipSpaces(s, i + 1) else i
  }

  function WordEnd(s: string, i: nat): (j: nat)
    requires i <= |s|
    ensures i <= j <= |s|
    ensures j < |s| ==> IsSpace(s[j])
    decreases |s| - i
  {
    if i < |s| && !IsSpace(s[i]) then WordEnd(s, i + 1) else i
  }

  lemma {:induction false} SkipsOnlySpaces(s: string, i: nat)
    requires i <= |s|
    ensures forall k :: i <= k < SkipSpaces(s, i) ==> IsSpace(s[k])
    decreases |s| - i
  {
    if i < |s| && IsSpace(s[i]) {
      SkipsOnlySpaces(s, i + 1);
    }
  }

  lemma {:induction false} WordsHaveNoSpaces(s: string, i: nat)
    requires i <= |s|
    ensures forall k :: i <= k < WordEnd(s, i) ==> !IsSpace(s[k])
    decreases |s| - i
  {
    if i < |s| && !IsSpace(s[i]) {
      WordsHaveNoSpaces(s, i + 1);
    }
  }

  /** `text.split()`: the words themselves, without their places. */
  function Words(s: string, i: nat): seq<string>
    requires i <= |s|
    decreases |s| - i
  {
    var start := SkipSpaces(s, i);
    if start == |s| then []
    else
      var end := WordEnd(s, start);
      [s[start..end]] + Words(s, end)
  }

  /** `text.find(word, from)`: the first place at or after `from`. */
  function Find(s: string, word: string, from: nat): Option<nat>
    decreases |s| - from
  {
    if from + |word| > |s| then None
    else if s[from..from + |word|] == word then Some(from)
    else Find(s, word, from + 1)
  }

  /** Searching from the end of the last word, the next word is found exactly where it stands. */
  lemma {:induction false} FindIsExact(s: string, i: nat, start: nat)
    requires i <= start < |s| && forall k :: i <= k < start ==> IsSpace(s[k])
    requires !IsSpace(s[start])
    ensures Find(s, s[start..WordEnd(s, start)], i) == Some(start)
    decreases start - i
  {
    var end := WordEnd(s, start);
    var word := s[start..end];
    assert end > start && word[0] == s[start];
    if i < start {
      if i + |word| <= |s| {
        assert s[i..i + |word|][0] == s[i];
      }
      FindIsExact(s, i + 1, start);
    }
  }

  // ----- Tokens -----

  /** The characters trimmed off a raw token. */
  predicate IsMark(c: char) {
    || c == ' ' || c == '\t' || c == '\r' || c == '\n' || c == ':' || c == ';' || c == ',' || c == '.' || c == '*'
    || c == '\U{ff1a}' || c == '\U{ff1b}' || c == '\U{ff0c}' || c == '\U{3002}'
  }

  /** Strip the marks off both ends. */
  function TrimMarks(s: string): string {
    StripOff(s, IsMark)
  }

  datatype Token = Token(position: nat, text: string)

  /** Each word at its own place, without those that are only marks. */
  function Tokens(s: string, i: nat, trim: string -> string): seq<Token>
    requires i <= |s|
    decreases |s| - i
  {
    var start := SkipSpaces(s, i);
    if start == |s| then []
    else
      var end := WordEnd(s, start);
      Kept(start, trim(s[start..end])) + Tokens(s, end, trim)
  }

  function Kept(position: nat, token: string): seq<Token> {
    if token == "" then [] else [Token(position, token)]
  }

  /** A whitespace-separated word begins here. */
  predicate WordStart(s: string, p: nat) {
    p < |s| && !IsSpace(s[p]) && (p > 0 ==> IsSpace(s[p - 1]))
  }

  predicate Increasing(s: string, i: nat, tokens: seq<Token>) {
    && (forall k :: 0 <= k < |tokens| ==> i <= tokens[k].position < |s|)
    && (forall j, k :: 0 <= j < k < |tokens| ==> tokens[j].position < tokens[k].position)
  }

  lemma {:induction false} TokensIncrease(s: string, i: nat, trim: string -> string)
    requires i <= |s|
    ensures Increasing(s, i, Tokens(s, i, trim))
    decreases |s| - i
  {
    var start := SkipSpaces(s, i);
    if start < |s| {
      var end := WordEnd(s, start);
      TokensIncrease(s, end, trim);
      var kept, rest := Kept(start, trim(s[start..end])), Tokens(s, end, trim);
      assert Tokens(s, i, trim) == kept + rest;
      assert kept == [] ==> kept + rest == rest;
    }
  }

  /** The tokens are the words that are more than marks, each once and where it begins. */
  lemma {:induction false} TokensAreTheWords(s: string, i: nat, trim: string -> string, p: nat, text: string)
    requires i <= |s| && (0 < i < |s| ==> IsSpace(s[i - 1]) || IsSpace(s[i]))
    ensures Token(p, text) in Tokens(s, i, trim) <==>
              i <= p && WordStart(s, p) && text != "" && text == trim(s[p..WordEnd(s, p)])
    decreases |s| - i
  {
    var start := SkipSpaces(s, i);
    SkipsOnlySpaces(s, i);
    if start < |s| {
      var end := WordEnd(s, start);
      WordsHaveNoSpaces(s, start);
      TokensAreTheWords(s, end, trim, p, text);
      assert WordStart(s, start);
    }
  }

  /** Past the next word, what is gathered so far grows by its token. */
  lemma WordIsGathered(
    s: string, i: nat, trim: string -> string, words: seq<string>, word: string, gathered: seq<Token>, all: seq<Token>)
    requires i <= |s| && words == Words(s, i) && words != [] && word == words[0]
    requires all == gathered + Tokens(s, i, trim)
    ensures SkipSpaces(s, i) + |word| <= |s|
    ensures words[1..] == Words(s, SkipSpaces(s, i) + |word|)
    ensures var rest := Tokens(s, SkipSpaces(s, i) + |word|, trim);
            && (trim(word) == "" ==> all == gathered + rest)
            && (trim(word) != "" ==> all == (gathered + [Token(SkipSpaces(s, i), trim(word))]) + rest)
  {
    var start := SkipSpaces(s, i);
    assert start + |word| == WordEnd(s, start);
    var kept, rest := Kept(start, trim(word)), Tokens(s, WordEnd(s, start), trim);
    assert gathered + (kept + rest) == (gathered + kept) + rest;
  }

  /** Searched from the end of the last word, the next word is found, and where it stands. */
  method PositionOf(s: string, word: string, cursor: nat) returns (position: int)
    requires cursor <= |s| && Words(s, cursor) != [] && word == Words(s, cursor)[0]
    ensures position == SkipSpaces(s, cursor)
  {
    SkipsOnlySpaces(s, cursor);
    FindIsExact(s, cursor, SkipSpaces(s, cursor));
    var found := Find(s, word, cursor);
    position := if found.Some? then found.value else cursor;
  }

  /** Of `all` the tokens, those before `cursor` are gathered, and `words` are still to come. */
  ghost predicate Located(s: string, trim: string -> string, cursor: nat, words: seq<string>, tokens: seq<Token>,
                          all: seq<Token>) {
    cursor <= |s| && words == Words(s, cursor) && all == tokens + Tokens(s, cursor, trim)
  }

  lemma NoWordsLeft(s: string, trim: string -> string, i: nat)
    requires i <= |s| && Words(s, i) == []
    ensures Tokens(s, i, trim) == []
  {
  }

  method NextToken(s: string, trim: string -> string, cursor: nat, words: seq<string>, tokens: seq<Token>,
                   ghost all: seq<Token>)
    returns (newCursor: nat, rest: seq<string>, newTokens: seq<Token>)
    requires Located(s, trim, cursor, words, tokens, all) && words != []
    ensures Located(s, trim, newCursor, rest, newTokens, all) && |rest| < |words|
  {
    var word := words[0];
    WordIsGathered(s, cursor, trim, words, word, tokens, all);
    var position := PositionOf(s, word, cursor);
    newCursor := position + |word|;
    var token := trim(word);
    newTokens := tokens;
    if token != "" {
      newTokens := tokens + [Token(position, token)];
    }
    rest := words[1..];
  }

  /**
    The token locator.  No `find` fails, and every token carries the place of its own word, even when the
    same text occurs earlier inside another word: `TokensAreTheWords` and `TokensIncrease` say what
    `Tokens` is.
    */
  method LocateTokens(s: string, trim: string -> string) returns (tokens: seq<Token>)
    ensures tokens == Tokens(s, 0, trim)
  {
    tokens := [];
    var cursor, words := 0, Words(s, 0);
    while words != []
      invariant Located(s, trim, cursor, words, tokens, Tokens(s, 0, trim))
      decreases |words|
    {
      cursor, words, tokens := NextToken(s, trim, cursor, words, tokens, Tokens(s, 0, trim));
    }
    NoWordsLeft(s, trim, cursor);
  }

  method TokenPositions(s: string) returns (tokens: seq<Token>)
    ensures tokens == Tokens(s, 0, TrimMarks)
  {
    tokens := LocateTokens(s, TrimMarks);
  }

  // ----- Sections -----

  datatype Section = Section(position: nat, heading: string)

  predicate Sorted(sections: seq<Section>) {
    forall i, j :: 0 <= i < j < |sections| ==> sections[i].position <= sections[j].position
  }

  function Insert(sections: seq<Section>, x: Section): seq<Section> {
    if sections == [] || x.position < sections[0].position then [x] + sections
    else [sections[0]] + Insert(sections[1..], x)
  }

  /** Stable sort by position. */
  function SortByPosition(sections: seq<Section>): seq<Section> {
    if sections == [] then [] else Insert(SortByPosition(sections[..|sections| - 1]), sections[|sections| - 1])
  }

  lemma {:induction false} InsertAdds(sections: seq<Section>, x: Section)
    ensures multiset(Insert(sections, x)) == multiset(sections) + multiset{x}
  {
    if sections != [] && x.position >= sections[0].position {
      InsertAdds(sections[1..], x);
      assert sections == [sections[0]] + sections[1..];
    }
  }

  lemma {:induction false} InsertSorts(sections: seq<Section>, x: Section)
    requires Sorted(sections)
    ensures Sorted(Insert(sections, x))
    ensures forall k :: 0 <= k < |Insert(sections, x)| ==>
              Insert(sections, x)[k].position >= x.position
              || (sections != [] && Insert(sections, x)[k].position >= sections[0].position)
  {
    if sections != [] && x.position >= sections[0].position {
      InsertSorts(sections[1..], x);
    }
  }

  lemma {:induction false} SortSorts(sections: seq<Section>)
    ensures Sorted(SortByPosition(sections)) && multiset(SortByPosition(sections)) == multiset(sections)
  {
    if sections != [] {
      var front, last := sections[..|sections| - 1], sections[|sections| - 1];
      SortSorts(front);
      InsertAdds(SortByPosition(front), last);
      InsertSorts(SortByPosition(front), last);
      assert sections == front + [last];
    }
  }

  function FirstPosition(tokens: seq<Token>, text: string): Option<nat> {
    if tokens == [] then None
    else if tokens[0].text == text then Some(tokens[0].position)
    else FirstPosition(tokens[1..], text)
  }

  /** Where a heading stands: at its first token, or else where the text first contains it. */
  function PlaceOf(s: string, heading: string): Option<nat> {
    var token := FirstPosition(Tokens(s, 0, TrimMarks), heading);
    if token.Some? then token else Find(s, heading, 0)
  }

  /** The headings that occur, in the order of the list. */
  function Occurring(s: string, headings: seq<string>): seq<Section> {
    if headings == [] then []
    else
      var front, last := headings[..|headings| - 1], headings[|headings| - 1];
      if PlaceOf(s, last).Some? && last !in front
      then Occurring(s, front) + [Section(PlaceOf(s, last).value, last)]
      else Occurring(s, front)
  }

  /** Each heading that stands somewhere is there exactly once, with its place. */
  lemma {:induction false} OccurringOnce(s: string, headings: seq<string>)
    ensures forall x: Section :: x in Occurring(s, headings) <==>
              x.heading in headings && Some(x.position) == PlaceOf(s, x.heading)
    ensures forall i, j :: 0 <= i < j < |Occurring(s, headings)| ==>
              Occurring(s, headings)[i].heading != Occurring(s, headings)[j].heading
  {
    if headings != [] {
      var front, last := headings[..|headings| - 1], headings[|headings| - 1];
      OccurringOnce(s, front);
      assert headings == front + [last];
      forall i | 0 <= i < |Occurring(s, front)| ensures Occurring(s, front)[i].heading in front {
        assert Occurring(s, front)[i] in Occurring(s, front);
      }
    }
  }

  /** The sections standing at one position, in order. */
  function At(sections: seq<Section>, position: nat): seq<Section> {
    if sections == [] then []
    else (if sections[0].position == position then [sections[0]] else []) + At(sections[1..], position)
  }

  lemma {:induction false} AtConcat(a: seq<Section>, b: seq<Section>, position: nat)
    ensures At(a + b, position) == At(a, position) + At(b, position)
  {
    if a == [] {
      assert a + b == b;
    } else {
      assert (a + b)[1..] == a[1..] + b;
      AtConcat(a[1..], b, position);
    }
  }

  lemma {:induction false} InsertIsLast(sections: seq<Section>, x: Section, position: nat)
    requires Sorted(sections)
    ensures At(Insert(sections, x), position) == At(sections + [x], position)
  {
    AtConcat(sections, [x], position);
    if sections == [] {
    } else if x.position < sections[0].position {
      AtConcat([x], sections, position);
      NoneAt(sections, x.position);
    } else {
      InsertIsLast(sections[1..], x, position);
      AtConcat(sections[1..], [x], position);
    }
  }

  lemma {:induction false} NoneAt(sections: seq<Section>, position: nat)
    requires forall k :: 0 <= k < |sections| ==> position < sections[k].position
    ensures At(sections, position) == []
  {
    if sections != [] {
      NoneAt(sections[1..], position);
    }
  }

  /** Headings at one and the same position keep their order. */
  lemma {:induction false} SortIsStable(sections: seq<Section>, position: nat)
    ensures At(SortByPosition(sections), position) == At(sections, position)
  {
    if sections != [] {
      var front, last := sections[..|sections| - 1], sections[|sections| - 1];
      SortIsStable(front, position);
      SortSorts(front);
      InsertIsLast(SortByPosition(front), last, position);
      AtConcat(SortByPosition(front), [last], position);
      AtConcat(front, [last], position);
      assert sections == front + [last];
    }
  }

  /** The headings that occur, by position. */
  method SectionPositions(s: string, headings: seq<string>) returns (sections: seq<Section>)
    ensures sections == SortByPosition(Occurring(s, headings))
    ensures Sorted(sections)
  {
    var tokens := TokenPositions(s);
    var found: seq<Section> := [];
    var seen: set<string> := {};
    for i := 0 to |headings|
      invariant found == Occurring(s, headings[..i])
      invariant seen == Found(s, headings[..i])
    {
      var heading := headings[i];
      var position := FirstPosition(tokens, heading);
      if position.None? {
        position := Find(s, heading, 0);
      }
      assert headings[..i + 1][..i] == headings[..i];
      if position.Some? && heading !in seen {
        seen := seen + {heading};
        found := found + [Section(position.value, heading)];
      }
    }
    assert headings[..|headings|] == headings;
    SortSorts(found);
    sections := SortByPosition(found);
  }

  /** The headings met so far that stand somewhere. */
  function Found(s: string, headings: seq<string>): set<string> {
    set heading | heading in headings && PlaceOf(s, heading).Some?
  }

  /** The last section at or before a position, or none before the first heading. */
  method SectionForPosition(position: nat, sections: seq<Section>) returns (current: string)
    requires Sorted(sections)
    ensures (forall k :: 0 <= k < |sections| ==> sections[k].position > position) ==> current == ""
    ensures forall k :: 0 <= k < |sections| && sections[k].position <= position
                        && (forall j :: k < j < |sections| ==> sections[j].position > position) ==>
              current == sections[k].heading
  {
    current := "";
    for i := 0 to |sections|
      invariant forall k :: 0 <= k < i ==> sections[k].position <= position
      invariant current == if i == 0 then "" else sections[i - 1].heading
    {
      if sections[i].position > position {
        assert forall k :: i <= k < |sections| ==> sections[k].position > position;
        return;
      }
      current := sections[i].heading;
    }
  }
}
