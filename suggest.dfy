/**
 * The template-reference field: typing `{{` opens a list of node ids filtered by the text typed
 * since, and picking one splices `{{<id>.result.}}` into the text with the caret before `}}`.
 */
module Suggest {
  import opened Wrappers
  import opened Values
  import opened Graph
  import opened Text

  /** Where the open `{{` is: its index, and the index where the search text starts. */
  datatype BracketInfo = BracketInfo(position: nat, searchStart: nat)

  /** One entry of the list: the node id and its display label. */
  datatype Suggestion = Suggestion(id: string, caption: string)

  /** What a change to the text means for the list: hidden, or open at a bracket with a search text. */
  datatype Mode = Hidden | Suggesting(info: BracketInfo, search: string)

  /**
   * The bracket the caret is in: the last `{{` before the caret, provided no `}}` follows it
   * before the caret.
   */
  function Detect(text: string, cursor: nat): (m: Mode)
    ensures var before := Slice(text, 0, cursor);
      m.Suggesting? <==> Includes(before, "{{") && !Includes(before[LastIndexOf(before, "{{") + 2..], "}}")
    ensures var before := Slice(text, 0, cursor);
      m.Suggesting? ==>
        m.info.searchStart == m.info.position + 2 && m.info.searchStart <= |before| &&
        OccursAt(before, "{{", m.info.position) &&
        (forall j :: m.info.position < j <= |before| ==> !OccursAt(before, "{{", j)) &&
        m.search == before[m.info.searchStart..] && !Includes(m.search, "}}")
  {
    var before := Slice(text, 0, cursor);
    var last := LastIndexOf(before, "{{");
    if last != -1 && !Includes(before[last + 2..], "}}") then
      Suggesting(BracketInfo(last, last + 2), before[last + 2..])
    else Hidden
  }

  /** The caret sits in a bracket when it right after a fresh `{{`: the search is then empty. */
  lemma DetectRightAfterOpen(prefix: string, rest: string)
    ensures Detect(prefix + "{{" + rest, |prefix| + 2) == Suggesting(BracketInfo(|prefix|, |prefix| + 2), "")
  {
    var text := prefix + "{{" + rest;
    var before := Slice(text, 0, |prefix| + 2);
    assert before == prefix + "{{";
    assert OccursAt(before, "{{", |prefix|);
    var last := LastIndexOf(before, "{{");
    assert last == |prefix|;
    assert before[last + 2..] == "";
  }

  /** A node is listed when the search is empty or its lower-cased id contains the lower-cased search. */
  predicate Matches(search: string, n: Node) {
    search == "" || Includes(ToLower(n.id), ToLower(search))
  }

  /** The search ignores letter case, in the search and in the node id alike. */
  lemma MatchesIgnoresCase(search: string, n: Node)
    ensures Matches(ToLower(search), n) == Matches(search, n)
    ensures Matches(search, n.(id := ToLower(n.id))) == Matches(search, n)
  {
    ToLowerTwice(search);
    ToLowerTwice(n.id);
  }

  /** `${id} (${data.label || type || "Unknown"})`. */
  function LabelOf(n: Node): (r: string)
    ensures Truthy(Lookup(n.data, "label")) ==> r == n.id + " (" + Stringify(Lookup(n.data, "label")) + ")"
    ensures !Truthy(Lookup(n.data, "label")) && n.nodeType != "" ==> r == n.id + " (" + n.nodeType + ")"
    ensures !Truthy(Lookup(n.data, "label")) && n.nodeType == "" ==> r == n.id + " (Unknown)"
  {
    var title := Lookup(n.data, "label");
    n.id + " (" + (if Truthy(title) then Stringify(title) else if n.nodeType != "" then n.nodeType else "Unknown") + ")"
  }

  /** The suggestions for a search: the matching nodes, in canvas order, with their labels. */
  function Suggestions(nodes: seq<Node>, search: string): (r: seq<Suggestion>)
    ensures |r| <= |nodes|
    ensures forall n :: n in nodes && Matches(search, n) ==> EntryOf(n) in r
  {
    if |nodes| == 0 then []
    else
      var rest := Suggestions(nodes[1..], search);
      if Matches(search, nodes[0]) then [EntryOf(nodes[0])] + rest else rest
  }

  /** The list keeps canvas order: filtering a concatenation concatenates the filtered parts. */
  lemma {:induction false} SuggestionsAppend(a: seq<Node>, b: seq<Node>, search: string)
    ensures Suggestions(a + b, search) == Suggestions(a, search) + Suggestions(b, search)
    decreases |a|
  {
    if |a| > 0 {
      assert (a + b)[0] == a[0] && (a + b)[1..] == a[1..] + b;
      SuggestionsAppend(a[1..], b, search);
    } else {
      assert a + b == b;
    }
  }

  /** The entry a listed node gets. */
  function EntryOf(n: Node): Suggestion {
    Suggestion(n.id, LabelOf(n))
  }

  /** The node a suggestion comes from: a matching node whose entry it is. */
  lemma {:induction false} SuggestionSource(nodes: seq<Node>, search: string, i: nat) returns (k: nat)
    requires i < |Suggestions(nodes, search)|
    ensures k < |nodes| && Matches(search, nodes[k]) && Suggestions(nodes, search)[i] == EntryOf(nodes[k])
    decreases |nodes|
  {
    var tail := nodes[1..];
    var rest := Suggestions(tail, search);
    if Matches(search, nodes[0]) {
      assert Suggestions(nodes, search) == [EntryOf(nodes[0])] + rest;
      if i == 0 {
        k := 0;
      } else {
        var t := SuggestionSource(tail, search, i - 1);
        k := t + 1;
      }
    } else {
      assert Suggestions(nodes, search) == rest;
      var t := SuggestionSource(tail, search, i);
      k := t + 1;
    }
  }

  /** `s` is the entry of some node of `nodes` that the search matches. */
  predicate FromMatchingNode(nodes: seq<Node>, search: string, s: Suggestion) {
    exists k :: 0 <= k < |nodes| && Matches(search, nodes[k]) && s == EntryOf(nodes[k])
  }

  /** Every suggestion is the entry of a matching node. */
  lemma {:induction false} SuggestionsSound(nodes: seq<Node>, search: string)
    ensures forall i :: 0 <= i < |Suggestions(nodes, search)| ==> FromMatchingNode(nodes, search, Suggestions(nodes, search)[i])
  {
    var r := Suggestions(nodes, search);
    forall i | 0 <= i < |r|
      ensures FromMatchingNode(nodes, search, r[i])
    {
      var k := SuggestionSource(nodes, search, i);
    }
  }

  /** An empty search lists every node. */
  lemma {:induction false} EmptySearchListsAll(nodes: seq<Node>)
    ensures |Suggestions(nodes, "")| == |nodes|
    ensures forall i :: 0 <= i < |nodes| ==> Suggestions(nodes, "")[i] == EntryOf(nodes[i])
    decreases |nodes|
  {
    if |nodes| > 0 {
      EmptySearchListsAll(nodes[1..]);
    }
  }

  /** The text after picking `nodeId` for the bracket at `position`, with the caret at `caret`, and the new caret. */
  function Splice(value: string, position: nat, caret: nat, nodeId: string): (r: (string, nat))
    ensures var before := Slice(value, 0, position);
      r.1 <= |r.0| &&
      r.0[..r.1] == before + "{{" + nodeId + ".result." &&
      r.0[r.1..] == "}}" + Slice(value, caret, |value|)
    ensures r.1 == (if position <= |value| then position else |value|) + 2 + |nodeId| + 8
  {
    var before := Slice(value, 0, position);
    var after := Slice(value, caret, |value|);
    var text := before + "{{" + nodeId + ".result.}}" + after;
    var cursor := |before| + |"{{"| + |nodeId| + |".result."|;
    assert text == (before + "{{" + nodeId + ".result.") + ("}}" + after);
    (text, cursor)
  }

  /** The field's state. `value` is the text its owner holds; `nodes` the canvas nodes it suggests from. */
  class SuggestField {
    var value: string
    var nodes: seq<Node>
    var showSuggestions: bool
    var suggestions: seq<Suggestion>
    var searchText: string
    var bracketInfo: Option<BracketInfo>

    constructor (value: string, nodes: seq<Node>)
      ensures this.value == value && this.nodes == nodes
      ensures !showSuggestions && suggestions == [] && searchText == "" && bracketInfo == None
    {
      this.value := value;
      this.nodes := nodes;
      showSuggestions := false;
      suggestions := [];
      searchText := "";
      bracketInfo := None;
    }

    /**
     * A keystroke: hands the new text to the owner first, then opens the list at the bracket
     * the caret is in, or hides it. The search text is kept when the list is hidden.
     */
    method HandleChange(newText: string, selectionStart: Option<nat>) returns (emitted: string)
      modifies this
      ensures emitted == newText && value == newText && nodes == old(nodes)
      ensures var m := Detect(newText, selectionStart.GetOr(0));
        (m.Suggesting? ==>
           showSuggestions && bracketInfo == Some(m.info) && searchText == m.search &&
           suggestions == Suggestions(nodes, m.search)) &&
        (m.Hidden? ==>
           !showSuggestions && bracketInfo == None && suggestions == [] && searchText == old(searchText))
    {
      var cursorPos := selectionStart.GetOr(0);
      emitted := newText;
      value := newText;
      var textBeforeCursor := Slice(newText, 0, cursorPos);
      var lastDoubleBracket := LastIndexOf(textBeforeCursor, "{{");
      if lastDoubleBracket != -1 {
        var textAfterBrackets := textBeforeCursor[lastDoubleBracket + 2..];
        if !Includes(textAfterBrackets, "}}") {
          searchText := textAfterBrackets;
          bracketInfo := Some(BracketInfo(lastDoubleBracket, lastDoubleBracket + 2));
          suggestions := Suggestions(nodes, textAfterBrackets);
          showSuggestions := true;
          return;
        }
      }
      showSuggestions := false;
      bracketInfo := None;
      suggestions := [];
    }

    /**
     * Picking a node: without an open bracket or a mounted input nothing happens; otherwise the
     * owner gets the spliced text, the list closes, and the caret moves to just before `}}`.
     * `selectionStart` is the caret of the mounted input, `None` when no input is mounted.
     */
    method HandleNodeSelect(nodeId: string, selectionStart: Option<nat>) returns (emitted: Option<string>, cursor: Option<nat>)
      modifies this
      ensures old(bracketInfo).None? || selectionStart.None? ==>
        emitted == None && cursor == None && showSuggestions == old(showSuggestions) && bracketInfo == old(bracketInfo)
      ensures old(bracketInfo).Some? && selectionStart.Some? ==>
        var r := Splice(old(value), old(bracketInfo).value.position, selectionStart.value, nodeId);
        emitted == Some(r.0) && cursor == Some(r.1) && !showSuggestions && bracketInfo == None
      ensures value == old(value) && nodes == old(nodes) && suggestions == old(suggestions) && searchText == old(searchText)
    {
      emitted, cursor := None, None;
      if bracketInfo.None? || selectionStart.None? {
        return;
      }
      var r := Splice(value, bracketInfo.value.position, selectionStart.value, nodeId);
      emitted, cursor := Some(r.0), Some(r.1);
      showSuggestions := false;
      bracketInfo := None;
    }

    /** Escape closes an open list and forgets the bracket; the text is not touched. */
    method HandleKeyDown(key: string)
      modifies this
      ensures key == "Escape" && old(showSuggestions) ==> !showSuggestions && bracketInfo == None
      ensures !(key == "Escape" && old(showSuggestions)) ==>
        showSuggestions == old(showSuggestions) && bracketInfo == old(bracketInfo)
      ensures value == old(value) && nodes == old(nodes) && suggestions == old(suggestions) && searchText == old(searchText)
    {
      if key == "Escape" && showSuggestions {
        showSuggestions := false;
        bracketInfo := None;
      }
    }
  }
}
