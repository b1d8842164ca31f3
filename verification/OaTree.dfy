/**
  The HTML tree builder of agentbridge/adapters/seeyon_home.py.  Nodes are shared between their parent's
  child list and the stack of open nodes, so a node is an index into the list of all nodes made so far.
  */
module OaTree {
  import opened Options

  datatype Node = Node(tag: string, attrs: map<string, string>, children: seq<nat>, texts: seq<string>)

  datatype Event =
    | StartTag(tag: string, attrs: seq<(string, Option<string>)>)
    | EndTag(tag: string)
    | Data(text: string)

  datatype State = State(nodes: seq<Node>, stack: seq<nat>)

  /** Lower case of the ASCII letters. */
  function Lower(s: string): string {
    if s == "" then "" else [if 'A' <= s[0] <= 'Z' then s[0] + ' ' else s[0]] + Lower(s[1..])
  }

  /** `{key.lower(): value or ""}`: a later attribute of the same name wins. */
  function Attributes(attrs: seq<(string, Option<string>)>): map<string, string> {
    if attrs == [] then map[]
    else
      var (key, value) := attrs[|attrs| - 1];
      Attributes(attrs[..|attrs| - 1])[Lower(key) := if value.Some? then value.value else ""]
  }

  const ROOT := Node("document", map[], [], [])
  const EMPTY := State([ROOT], [0])

  // ----- Well-formed states -----

  /** Children come after their parent. */
  predicate Forward(nodes: seq<Node>) {
    forall i :: 0 <= i < |nodes| ==> Below(nodes, i, nodes[i].children)
  }

  predicate Below(nodes: seq<Node>, i: nat, children: seq<nat>) {
    forall k :: 0 <= k < |children| ==> i < children[k] < |nodes|
  }

  /** No node is a child twice. */
  predicate OneParent(nodes: seq<Node>) {
    forall i, k, j, l
      | 0 <= i < |nodes| && 0 <= k < |nodes[i].children| && 0 <= j < |nodes| && 0 <= l < |nodes[j].children| ::
      nodes[i].children[k] == nodes[j].children[l] ==> i == j && k == l
  }

  /** The stack is a chain from the root, each node the last child of the one below it. */
  predicate Chain(nodes: seq<Node>, stack: seq<nat>) {
    && stack != [] && stack[0] == 0
    && (forall i :: 0 <= i < |stack| ==> stack[i] < |nodes|)
    && (forall i :: 0 <= i < |stack| - 1 ==>
          var children := nodes[stack[i]].children;
          children != [] && children[|children| - 1] == stack[i + 1])
  }

  function ChildCount(nodes: seq<Node>): nat {
    if nodes == [] then 0 else ChildCount(nodes[..|nodes| - 1]) + |nodes[|nodes| - 1].children|
  }

  predicate Valid(s: State) {
    && Forward(s.nodes) && OneParent(s.nodes) && Chain(s.nodes, s.stack)
    && ChildCount(s.nodes) == |s.nodes| - 1
  }

  // ----- What each event does -----

  function Top(s: State): nat
    requires s.stack != []
  {
    s.stack[|s.stack| - 1]
  }

  /** Where the end tag cuts the stack: at the innermost open node with its tag, never at the root. */
  function CutAt(nodes: seq<Node>, stack: seq<nat>, tag: string): (n: nat)
    requires forall i :: 0 <= i < |stack| ==> stack[i] < |nodes|
    ensures n <= |stack|
    ensures stack != [] ==> n >= 1
  {
    if |stack| <= 1 then |stack|
    else if nodes[stack[|stack| - 1]].tag == tag then |stack| - 1
    else
      var n := CutAt(nodes, stack[..|stack| - 1], tag);
      if n == |stack| - 1 then |stack| else n
  }

  function Feed(s: State, e: Event): State
    requires s.stack != [] && forall i :: 0 <= i < |s.stack| ==> s.stack[i] < |s.nodes|
  {
    match e
    case StartTag(tag, attrs) =>
      var n := |s.nodes|;
      var parent := s.nodes[Top(s)];
      State(s.nodes[Top(s) := parent.(children := parent.children + [n])]
            + [Node(Lower(tag), Attributes(attrs), [], [])],
            s.stack + [n])
    case EndTag(tag) => s.(stack := s.stack[..CutAt(s.nodes, s.stack, Lower(tag))])
    case Data(text) =>
      if text == "" then s
      else
        var node := s.nodes[Top(s)];
        s.(nodes := s.nodes[Top(s) := node.(texts := node.texts + [text])])
  }

  // ----- The class -----

  class TreeBuilder {
    var nodes: seq<Node>
    var stack: seq<nat>

    ghost predicate Ok()
      reads this
    {
      Valid(Now())
    }

    function Now(): State
      reads this
    {
      State(nodes, stack)
    }

    constructor ()
      ensures Ok() && Now() == EMPTY
    {
      nodes := [ROOT];
      stack := [0];
      new;
      EmptyIsValid();
    }

    method HandleStartTag(tag: string, attrs: seq<(string, Option<string>)>)
      requires Ok()
      modifies this
      ensures Ok() && Now() == Feed(old(Now()), StartTag(tag, attrs))
    {
      FeedKeepsValid(Now(), StartTag(tag, attrs));
      var parent := stack[|stack| - 1];
      var node := |nodes|;
      nodes := nodes[parent := nodes[parent].(children := nodes[parent].children + [node])];
      nodes := nodes + [Node(Lower(tag), Attributes(attrs), [], [])];
      stack := stack + [node];
    }

    method HandleEndTag(tag: string)
      requires Ok()
      modifies this
      ensures Ok() && Now() == Feed(old(Now()), EndTag(tag))
    {
      FeedKeepsValid(Now(), EndTag(tag));
      var wanted := Lower(tag);
      var index := |stack| - 1;
      while index > 0
        invariant 0 <= index < |stack| && Now() == old(Now())
        invariant forall k :: index < k < |stack| ==> nodes[stack[k]].tag != wanted
      {
        if nodes[stack[index]].tag == wanted {
          CutAtIs(nodes, stack, wanted, index);
          stack := stack[..index];
          return;
        }
        index := index - 1;
      }
      CutAtIs(nodes, stack, wanted, 0);
      assert stack[..|stack|] == stack;
    }

    method HandleData(text: string)
      requires Ok()
      modifies this
      ensures Ok() && Now() == Feed(old(Now()), Data(text))
    {
      FeedKeepsValid(Now(), Data(text));
      if text != "" {
        var top := stack[|stack| - 1];
        nodes := nodes[top := nodes[top].(texts := nodes[top].texts + [text])];
      }
    }

    /** A whole document, event by event. */
    method FeedDocument(events: seq<Event>)
      requires Ok()
      modifies this
      ensures Ok() && Now() == FeedAll(old(Now()), events)
    {
      for i := 0 to |events|
        invariant Ok() && FeedAll(old(Now()), events) == FeedAll(Now(), events[i..])
      {
        match events[i]
        case StartTag(tag, attrs) => HandleStartTag(tag, attrs);
        case EndTag(tag) => HandleEndTag(tag);
        case Data(text) => HandleData(text);
      }
    }
  }

  // ----- Any event stream -----

  lemma EmptyIsValid()
    ensures Valid(EMPTY)
  {
    assert ChildCount([]) == 0;
    assert EMPTY.nodes[..0] == [];
  }

  lemma {:induction false} ChildCountOfUpdate(nodes: seq<Node>, i: nat, node: Node)
    requires i < |nodes|
    ensures ChildCount(nodes[i := node]) == ChildCount(nodes) - |nodes[i].children| + |node.children|
  {
    var n := |nodes| - 1;
    if i == n {
      assert nodes[i := node][..n] == nodes[..n];
    } else {
      ChildCountOfUpdate(nodes[..n], i, node);
      assert nodes[i := node][..n] == nodes[..n][i := node];
    }
  }

  /** The innermost open node of that tag, or nothing to cut. */
  lemma {:induction false} CutAtIs(nodes: seq<Node>, stack: seq<nat>, tag: string, index: nat)
    requires index < |stack| && forall i :: 0 <= i < |stack| ==> stack[i] < |nodes|
    requires forall k :: index < k < |stack| ==> nodes[stack[k]].tag != tag
    requires index > 0 ==> nodes[stack[index]].tag == tag
    ensures CutAt(nodes, stack, tag) == if index > 0 then index else |stack|
  {
    if 1 < |stack| && index < |stack| - 1 {
      CutAtIs(nodes, stack[..|stack| - 1], tag, index);
    }
  }

  lemma StartKeepsOneParent(nodes: seq<Node>, top: nat, child: Node)
    requires Forward(nodes) && OneParent(nodes) && top < |nodes| && child.children == []
    ensures var parent := nodes[top].(children := nodes[top].children + [|nodes|]);
            OneParent(nodes[top := parent] + [child]) && Forward(nodes[top := parent] + [child])
  {
    var nodes' := nodes[top := nodes[top].(children := nodes[top].children + [|nodes|])] + [child];
    forall i | 0 <= i < |nodes'| ensures Below(nodes', i, nodes'[i].children) {
      assert i < |nodes| ==> Below(nodes, i, nodes[i].children);
    }
    forall i, k, j, l
      | 0 <= i < |nodes'| && 0 <= k < |nodes'[i].children| && 0 <= j < |nodes'| && 0 <= l < |nodes'[j].children|
      ensures nodes'[i].children[k] == nodes'[j].children[l] ==> i == j && k == l
    {
      assert i < |nodes| && j < |nodes|;
      assert Below(nodes, i, nodes[i].children) && Below(nodes, j, nodes[j].children);
    }
  }

  lemma StartKeepsChain(s: State, child: Node)
    requires Forward(s.nodes) && Chain(s.nodes, s.stack)
    ensures var top := Top(s);
            var parent := s.nodes[top].(children := s.nodes[top].children + [|s.nodes|]);
            Chain(s.nodes[top := parent] + [child], s.stack + [|s.nodes|])
  {
    StackIsSorted(s);
  }

  lemma StartKeepsValid(s: State, tag: string, attrs: seq<(string, Option<string>)>)
    requires Valid(s)
    ensures Valid(Feed(s, StartTag(tag, attrs)))
  {
    var top := Top(s);
    var parent := s.nodes[top].(children := s.nodes[top].children + [|s.nodes|]);
    var child := Node(Lower(tag), Attributes(attrs), [], []);
    ChildCountOfUpdate(s.nodes, top, parent);
    assert (s.nodes[top := parent] + [child])[..|s.nodes|] == s.nodes[top := parent];
    StartKeepsOneParent(s.nodes, top, child);
    StartKeepsChain(s, child);
  }

  lemma SameChildren(nodes: seq<Node>, nodes': seq<Node>, stack: seq<nat>)
    requires |nodes'| == |nodes| && forall i :: 0 <= i < |nodes| ==> nodes'[i].children == nodes[i].children
    requires Forward(nodes) && OneParent(nodes) && Chain(nodes, stack)
    ensures Forward(nodes') && OneParent(nodes') && Chain(nodes', stack)
  {
    forall i | 0 <= i < |nodes'| ensures Below(nodes', i, nodes'[i].children) {
      assert Below(nodes, i, nodes[i].children);
    }
  }

  lemma DataKeepsValid(s: State, text: string)
    requires Valid(s)
    ensures Valid(Feed(s, Data(text)))
  {
    if text != "" {
      var node := s.nodes[Top(s)].(texts := s.nodes[Top(s)].texts + [text]);
      ChildCountOfUpdate(s.nodes, Top(s), node);
      SameChildren(s.nodes, s.nodes[Top(s) := node], s.stack);
    }
  }

  lemma FeedKeepsValid(s: State, e: Event)
    requires Valid(s)
    ensures Valid(Feed(s, e))
    ensures |Feed(s, e).nodes| == |s.nodes| + if e.StartTag? then 1 else 0
  {
    match e
    case StartTag(tag, attrs) => StartKeepsValid(s, tag, attrs);
    case EndTag(tag) =>
    case Data(text) => DataKeepsValid(s, text);
  }

  /** Open nodes appear on the stack once, in the order in which they were made. */
  lemma {:induction false} StackIsSorted(s: State)
    requires Forward(s.nodes) && Chain(s.nodes, s.stack)
    ensures forall i, j :: 0 <= i < j < |s.stack| ==> s.stack[i] < s.stack[j]
    decreases |s.stack|
  {
    if |s.stack| > 1 {
      var shorter := s.(stack := s.stack[..|s.stack| - 1]);
      StackIsSorted(shorter);
      var below := s.stack[|s.stack| - 2];
      assert Below(s.nodes, below, s.nodes[below].children);
      forall i, j | 0 <= i < j < |s.stack| ensures s.stack[i] < s.stack[j] {
        if j < |s.stack| - 1 {
          assert shorter.stack[i] < shorter.stack[j];
        } else if i < |s.stack| - 2 {
          assert shorter.stack[i] < shorter.stack[|s.stack| - 2];
        }
      }
    }
  }

  function FeedAll(s: State, events: seq<Event>): (s': State)
    requires Valid(s)
    ensures Valid(s')
    decreases |events|
  {
    if events == [] then s
    else
      FeedKeepsValid(s, events[0]);
      FeedAll(Feed(s, events[0]), events[1..])
  }

  function StartTags(events: seq<Event>): nat {
    if events == [] then 0 else (if events[0].StartTag? then 1 else 0) + StartTags(events[1..])
  }

  /** The non-empty data chunks. */
  function Chunks(events: seq<Event>): multiset<string> {
    if events == [] then multiset{}
    else
      (if events[0].Data? && events[0].text != "" then multiset{events[0].text} else multiset{}) + Chunks(events[1..])
  }

  function TextsIn(nodes: seq<Node>): multiset<string> {
    if nodes == [] then multiset{} else TextsIn(nodes[..|nodes| - 1]) + multiset(nodes[|nodes| - 1].texts)
  }

  lemma {:induction false} TextsOfUpdate(nodes: seq<Node>, i: nat, node: Node, more: seq<string>)
    requires i < |nodes| && node.texts == nodes[i].texts + more
    ensures TextsIn(nodes[i := node]) == TextsIn(nodes) + multiset(more)
  {
    var n := |nodes| - 1;
    if i == n {
      assert nodes[i := node][..n] == nodes[..n];
    } else {
      TextsOfUpdate(nodes[..n], i, node, more);
      assert nodes[i := node][..n] == nodes[..n][i := node];
    }
  }

  lemma FeedTexts(s: State, e: Event)
    requires Valid(s)
    ensures TextsIn(Feed(s, e).nodes) == TextsIn(s.nodes) + Chunks([e])
  {
    var top := Top(s);
    assert Chunks([e]) == (if e.Data? && e.text != "" then multiset{e.text} else multiset{}) + Chunks([]);
    match e
    case StartTag(tag, attrs) =>
      var parent := s.nodes[top].(children := s.nodes[top].children + [|s.nodes|]);
      TextsOfUpdate(s.nodes, top, parent, []);
      assert Feed(s, e).nodes[..|s.nodes|] == s.nodes[top := parent];
    case EndTag(tag) =>
    case Data(text) =>
      if text != "" {
        TextsOfUpdate(s.nodes, top, s.nodes[top].(texts := s.nodes[top].texts + [text]), [text]);
      }
  }

  /**
    Whatever the events, one node is made for each start tag, and the data chunks are spread over the
    nodes without loss or duplication: each non-empty one lies in exactly one node.
    */
  lemma {:induction false} NothingIsLostOrDoubled(s: State, events: seq<Event>)
    requires Valid(s)
    ensures |FeedAll(s, events).nodes| == |s.nodes| + StartTags(events)
    ensures TextsIn(FeedAll(s, events).nodes) == TextsIn(s.nodes) + Chunks(events)
    decreases |events|
  {
    if events != [] {
      FeedKeepsValid(s, events[0]);
      FeedTexts(s, events[0]);
      assert Chunks([events[0]]) + Chunks(events[1..]) == Chunks(events) by {
        assert Chunks([events[0]][1..]) == multiset{};
      }
      NothingIsLostOrDoubled(Feed(s, events[0]), events[1..]);
    }
  }

  // ----- Well-nested documents -----

  /** Mixed content: text and elements in document order. */
  datatype Forest =
    | Nothing
    | Text(text: string, rest: Forest)
    | Element(tag: string, attrs: seq<(string, Option<string>)>, content: Forest, rest: Forest)

  function Linearize(f: Forest): seq<Event> {
    match f
    case Nothing => []
    case Text(text, rest) => [Data(text)] + Linearize(rest)
    case Element(tag, attrs, content, rest) =>
      [StartTag(tag, attrs)] + (Linearize(content) + ([EndTag(tag)] + Linearize(rest)))
  }

  /** The document a tree of nodes stands for: a node keeps its texts and its children in two lists. */
  datatype Dom = Dom(tag: string, attrs: map<string, string>, texts: seq<string>, children: seq<Dom>)

  function TextsOf(f: Forest): seq<string> {
    match f
    case Nothing => []
    case Text(text, rest) => (if text != "" then [text] else []) + TextsOf(rest)
    case Element(_, _, _, rest) => TextsOf(rest)
  }

  function ElementsOf(f: Forest): seq<Dom> {
    match f
    case Nothing => []
    case Text(_, rest) => ElementsOf(rest)
    case Element(tag, attrs, content, rest) =>
      [Dom(Lower(tag), Attributes(attrs), TextsOf(content), ElementsOf(content))] + ElementsOf(rest)
  }

  /** The document below node `i`. */
  function DomAt(nodes: seq<Node>, i: nat): Dom
    requires Forward(nodes) && i < |nodes|
    decreases |nodes| - i, 1, 0
  {
    var node := nodes[i];
    Dom(node.tag, node.attrs, node.texts, DomsAt(nodes, i, node.children))
  }

  function DomsAt(nodes: seq<Node>, i: nat, children: seq<nat>): seq<Dom>
    requires Forward(nodes) && i < |nodes| && Below(nodes, i, children)
    decreases |nodes| - i, 0, |children|
  {
    if children == [] then []
    else [DomAt(nodes, children[0])] + DomsAt(nodes, i, children[1..])
  }

  /** Nodes up to `i` do not matter to what lies below it, nor do nodes made later. */
  lemma {:induction false} DomsAtFrame(nodes: seq<Node>, nodes': seq<Node>, i: nat, children: seq<nat>)
    requires Forward(nodes) && Forward(nodes') && i < |nodes| <= |nodes'| && Below(nodes, i, children)
    requires forall k :: i < k < |nodes| ==> nodes'[k] == nodes[k]
    ensures Below(nodes', i, children) && DomsAt(nodes', i, children) == DomsAt(nodes, i, children)
    decreases |nodes| - i, |children|
  {
    if children != [] {
      var c := children[0];
      DomsAtFrame(nodes, nodes', c, nodes[c].children);
      DomsAtFrame(nodes, nodes', i, children[1..]);
    }
  }

  lemma {:induction false} FeedAllConcat(s: State, a: seq<Event>, b: seq<Event>)
    requires Valid(s)
    ensures FeedAll(s, a + b) == FeedAll(FeedAll(s, a), b)
    decreases |a|
  {
    if a == [] {
      assert a + b == b;
    } else {
      assert (a + b)[1..] == a[1..] + b;
      FeedKeepsValid(s, a[0]);
      FeedAllConcat(Feed(s, a[0]), a[1..], b);
    }
  }

  /** `nodes'` is `nodes` with `f` added below `top`. */
  predicate Grown(nodes: seq<Node>, nodes': seq<Node>, top: nat, f: Forest)
    requires Forward(nodes')
  {
    && top < |nodes| <= |nodes'|
    && (forall k :: 0 <= k < |nodes| && k != top ==> nodes'[k] == nodes[k])
    && nodes'[top].tag == nodes[top].tag && nodes'[top].attrs == nodes[top].attrs
    && nodes'[top].texts == nodes[top].texts + TextsOf(f)
    && nodes[top].children <= nodes'[top].children
    && GrownChildren(nodes, nodes', top, nodes'[top].children[|nodes[top].children|..], ElementsOf(f))
  }

  predicate GrownChildren(nodes: seq<Node>, nodes': seq<Node>, top: nat, added: seq<nat>, doms: seq<Dom>)
    requires Forward(nodes') && top < |nodes| <= |nodes'|
  {
    && (forall k :: 0 <= k < |added| ==> |nodes| <= added[k] < |nodes'|)
    && Below(nodes', top, added)
    && DomsAt(nodes', top, added) == doms
  }

  lemma TextGrows(nodes: seq<Node>, top: nat, text: string, rest: Forest, nodes': seq<Node>)
    requires Forward(nodes') && top < |nodes| && text != ""
    requires Grown(nodes[top := nodes[top].(texts := nodes[top].texts + [text])], nodes', top, rest)
    ensures Grown(nodes, nodes', top, Text(text, rest))
  {
    assert nodes[top].texts + [text] + TextsOf(rest) == nodes[top].texts + ([text] + TextsOf(rest));
  }

  /** An element: its node `n` was made below `top`, filled with `content`, and then left for `rest`. */
  lemma ElementGrows(nodes: seq<Node>, top: nat, element: Node, content: Forest, rest: Forest,
                     filled: seq<Node>, nodes': seq<Node>)
    requires top < |nodes| && Forward(filled) && Forward(nodes') && element.texts == [] && element.children == []
    requires var parent := nodes[top].(children := nodes[top].children + [|nodes|]);
             Grown(nodes[top := parent] + [element], filled, |nodes|, content)
    requires Grown(filled, nodes', top, rest)
    ensures nodes[top].children <= nodes'[top].children
    ensures GrownChildren(nodes, nodes', top, nodes'[top].children[|nodes[top].children|..],
                          [Dom(element.tag, element.attrs, TextsOf(content), ElementsOf(content))] + ElementsOf(rest))
  {
    var n := |nodes|;
    var below := filled[n].children;
    assert below[0..] == below;
    DomsAtFrame(filled, nodes', n, below);
    var added := nodes'[top].children[|nodes[top].children|..];
    var later := nodes'[top].children[|nodes[top].children| + 1..];
    assert filled[top].children == nodes[top].children + [n];
    assert added == [n] + later && added[1..] == later;
    assert DomAt(nodes', n) == Dom(element.tag, element.attrs, TextsOf(content), ElementsOf(content));
  }

  function Closed(s: State, tag: string): (s': State)
    requires Valid(s)
    ensures Valid(s')
  {
    FeedKeepsValid(s, EndTag(tag));
    Feed(s, EndTag(tag))
  }

  lemma EndTagCloses(s: State, tag: string, below: seq<nat>)
    requires Valid(s) && below != [] && s.stack == below + [Top(s)] && s.nodes[Top(s)].tag == Lower(tag)
    ensures Closed(s, tag) == s.(stack := below)
  {
    CutAtIs(s.nodes, s.stack, Lower(tag), |s.stack| - 1);
    assert s.stack[..|s.stack| - 1] == below;
  }

  /** Feeding an element is feeding its start tag, its content, its end tag, and what follows. */
  lemma ElementIsFed(s: State, tag: string, attrs: seq<(string, Option<string>)>, content: Forest, rest: Forest)
    requires Valid(s)
    ensures Valid(Feed(s, StartTag(tag, attrs)))
    ensures FeedAll(s, Linearize(Element(tag, attrs, content, rest)))
            == FeedAll(Closed(FeedAll(Feed(s, StartTag(tag, attrs)), Linearize(content)), tag), Linearize(rest))
  {
    FeedKeepsValid(s, StartTag(tag, attrs));
    var s1 := Feed(s, StartTag(tag, attrs));
    var tail := [EndTag(tag)] + Linearize(rest);
    assert Linearize(Element(tag, attrs, content, rest))[1..] == Linearize(content) + tail;
    FeedAllConcat(s1, Linearize(content), tail);
    assert tail[1..] == Linearize(rest);
  }

  function Opened(nodes: seq<Node>, top: nat, tag: string, attrs: seq<(string, Option<string>)>): (nodes': seq<Node>)
    requires top < |nodes|
    ensures |nodes'| == |nodes| + 1 && nodes'[|nodes|] == Node(Lower(tag), Attributes(attrs), [], [])
  {
    nodes[top := nodes[top].(children := nodes[top].children + [|nodes|])]
    + [Node(Lower(tag), Attributes(attrs), [], [])]
  }

  lemma StartTagOpens(s: State, tag: string, attrs: seq<(string, Option<string>)>)
    requires Valid(s)
    ensures Feed(s, StartTag(tag, attrs)) == State(Opened(s.nodes, Top(s), tag, attrs), s.stack + [|s.nodes|])
  {
  }

  lemma ContentIsClosed(s: State, tag: string, attrs: seq<(string, Option<string>)>, content: Forest, s2: State)
    requires Valid(s) && Valid(s2) && s2.stack == s.stack + [|s.nodes|]
    requires Grown(Opened(s.nodes, Top(s), tag, attrs), s2.nodes, |s.nodes|, content)
    ensures Closed(s2, tag) == s2.(stack := s.stack)
  {
    EndTagCloses(s2, tag, s.stack);
  }

  /** All of `Grown` for an element, from its three parts. */
  lemma ElementIsGrown(nodes: seq<Node>, top: nat, tag: string, attrs: seq<(string, Option<string>)>,
                       content: Forest, rest: Forest, filled: seq<Node>, nodes': seq<Node>)
    requires top < |nodes| && Forward(filled) && Forward(nodes')
    requires Grown(Opened(nodes, top, tag, attrs), filled, |nodes|, content)
    requires Grown(filled, nodes', top, rest)
    ensures Grown(nodes, nodes', top, Element(tag, attrs, content, rest))
  {
    ElementGrows(nodes, top, Node(Lower(tag), Attributes(attrs), [], []), content, rest, filled, nodes');
  }

  lemma {:induction false} FeedingGrows(s: State, f: Forest)
    requires Valid(s)
    ensures FeedAll(s, Linearize(f)).stack == s.stack
    ensures Grown(s.nodes, FeedAll(s, Linearize(f)).nodes, Top(s), f)
    decreases f, 1
  {
    match f
    case Nothing =>
    case Text(text, rest) => FeedingTextGrows(s, text, rest);
    case Element(tag, attrs, content, rest) => FeedingElementGrows(s, tag, attrs, content, rest);
  }

  lemma {:induction false} FeedingTextGrows(s: State, text: string, rest: Forest)
    requires Valid(s)
    ensures FeedAll(s, Linearize(Text(text, rest))).stack == s.stack
    ensures Grown(s.nodes, FeedAll(s, Linearize(Text(text, rest))).nodes, Top(s), Text(text, rest))
    decreases Text(text, rest), 0
  {
    FeedKeepsValid(s, Data(text));
    FeedingGrows(Feed(s, Data(text)), rest);
    assert Linearize(Text(text, rest))[1..] == Linearize(rest);
    var nodes' := FeedAll(s, Linearize(Text(text, rest))).nodes;
    if text == "" {
      assert [] + TextsOf(rest) == TextsOf(rest);
    } else {
      TextGrows(s.nodes, Top(s), text, rest, nodes');
    }
  }

  lemma {:induction false} FeedingElementGrows(s: State, tag: string, attrs: seq<(string, Option<string>)>,
                                               content: Forest, rest: Forest)
    requires Valid(s)
    ensures FeedAll(s, Linearize(Element(tag, attrs, content, rest))).stack == s.stack
    ensures Grown(s.nodes, FeedAll(s, Linearize(Element(tag, attrs, content, rest))).nodes, Top(s),
                  Element(tag, attrs, content, rest))
    decreases Element(tag, attrs, content, rest), 0
  {
    ElementIsFed(s, tag, attrs, content, rest);
    var s1 := Feed(s, StartTag(tag, attrs));
    FeedingGrows(s1, content);
    var s2 := FeedAll(s1, Linearize(content));
    StartTagOpens(s, tag, attrs);
    ContentIsClosed(s, tag, attrs, content, s2);
    var s3 := Closed(s2, tag);
    FeedingGrows(s3, rest);
    var s4 := FeedAll(s3, Linearize(rest));
    ElementIsGrown(s.nodes, Top(s), tag, attrs, content, rest, s2.nodes, s4.nodes);
  }

  /** Feeding the start, data and end events of any document gives it back, with an empty stack of open tags. */
  lemma BuildingInvertsLinearization(f: Forest)
    ensures Valid(EMPTY)
    ensures var built := FeedAll(EMPTY, Linearize(f));
            built.stack == [0] && DomAt(built.nodes, 0) == Dom("document", map[], TextsOf(f), ElementsOf(f))
  {
    EmptyIsValid();
    FeedingGrows(EMPTY, f);
    var built := FeedAll(EMPTY, Linearize(f));
    assert built.nodes[0].children[0..] == built.nodes[0].children;
  }
}
