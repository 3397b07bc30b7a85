/**
 * getLinksArray and extractAllowableActionsFromNode: the two small maps
 * every extracted object carries.
 */
module Links {
  import opened Wrappers
  import opened Php
  import opened Xml

  const CMISTREE_TYPE := "application/cmistree+xml"

  /**
   * The key a link is stored under: its rel, except that the `down` link of
   * type application/cmistree+xml (the descendants link) becomes `down-tree`.
   */
  function LinkKey(l: Node): (k: string)
    ensures k == "down-tree" <==> Attr(l, "rel") == "down-tree" || (Attr(l, "rel") == "down" && Attr(l, "type") == CMISTREE_TYPE)
    ensures k != "down-tree" ==> k == Attr(l, "rel")
  {
    if Attr(l, "rel") == "down" && Attr(l, "type") == CMISTREE_TYPE then "down-tree" else Attr(l, "rel")
  }

  function LinkPairs(ls: seq<Node>): (ps: seq<(string, string)>)
    ensures |ps| == |ls|
    ensures forall i :: 0 <= i < |ls| ==> ps[i] == (LinkKey(ls[i]), Attr(ls[i], "href"))
  {
    seq(|ls|, i requires 0 <= i < |ls| => (LinkKey(ls[i]), Attr(ls[i], "href")))
  }

  /** The `link` elements below `n` (any prefix), in document order. */
  function LinkNodes(n: Node): seq<Node> {
    ElementsByTagName(n, "link")
  }

  /** getLinksArray: `$links[key] = href` for each link in document order. */
  function GetLinksArray(n: Node): map<string, string> {
    Assign(map[], LinkPairs(LinkNodes(n)))
  }

  /** The keys are exactly the keys of the links seen. */
  lemma LinksKeys(n: Node, k: string)
    ensures k in GetLinksArray(n) <==> exists i :: 0 <= i < |LinkNodes(n)| && LinkKey(LinkNodes(n)[i]) == k
  {
    var ps := LinkPairs(LinkNodes(n));
    AssignLastWins(map[], ps, k);
  }

  /** When a key repeats, the link last in document order wins. */
  lemma LinksLastWins(n: Node, k: string)
    requires k in GetLinksArray(n)
    ensures exists i :: 0 <= i < |LinkNodes(n)| && LinkKey(LinkNodes(n)[i]) == k
              && GetLinksArray(n)[k] == Attr(LinkNodes(n)[i], "href")
              && forall j :: i < j < |LinkNodes(n)| ==> LinkKey(LinkNodes(n)[j]) != k
  {
    var ps := LinkPairs(LinkNodes(n));
    AssignLastWins(map[], ps, k);
    var i := LastIndex(ps, k);
    assert i >= 0;
  }

  /**
   * The children link stays under `down`; the descendants link (a `down`
   * of cmistree type) never does.
   */
  lemma DownLinks(n: Node)
    ensures var ls := LinkNodes(n);
            "down" in GetLinksArray(n) <==>
              exists i :: 0 <= i < |ls| && Attr(ls[i], "rel") == "down" && Attr(ls[i], "type") != CMISTREE_TYPE
    ensures var ls := LinkNodes(n);
            "down-tree" in GetLinksArray(n) <==>
              exists i :: 0 <= i < |ls| && (Attr(ls[i], "rel") == "down-tree" || (Attr(ls[i], "rel") == "down" && Attr(ls[i], "type") == CMISTREE_TYPE))
  {
    LinksKeys(n, "down");
    LinksKeys(n, "down-tree");
  }

  // ---- allowable actions ----

  function Lower(c: char): char {
    if 'A' <= c <= 'Z' then (c as int + 32) as char else c
  }

  /**
   * preg_match("/^true$/i"): `true` in any case, which `$` also accepts
   * before one final newline.
   */
  predicate IsTrueText(s: string) {
    (|s| == 4 || (|s| == 5 && s[4] == '\n'))
    && Lower(s[0]) == 't' && Lower(s[1]) == 'r' && Lower(s[2]) == 'u' && Lower(s[3]) == 'e'
  }

  /** The element children of a node (the ones with a localName). */
  function ElementChildren(n: Node): (es: seq<Node>)
    ensures forall i :: 0 <= i < |es| ==> es[i].Element? && es[i] in Kids(n)
    ensures forall c :: c in Kids(n) && c.Element? ==> c in es
  {
    ChildrenMatching(Kids(n), AnyElement)
  }

  function ActionPairs(es: seq<Node>): (ps: seq<(string, bool)>)
    requires forall i :: 0 <= i < |es| ==> es[i].Element?
    ensures |ps| == |es|
    ensures forall i :: 0 <= i < |es| ==> ps[i] == (es[i].local, IsTrueText(TextContent(es[i])))
  {
    seq(|es|, i requires 0 <= i < |es| => (es[i].local, IsTrueText(TextContent(es[i]))))
  }

  /** The actions of one allowableActions element: one boolean per element child. */
  function ActionsOf(c: Node): map<string, bool> {
    Assign(map[], ActionPairs(ElementChildren(c)))
  }

  /**
   * extractAllowableActionsFromNode: only the first allowableActions
   * element below `n` is read; without one the map is empty.
   */
  function ExtractAllowableActions(n: Node): (r: map<string, bool>)
    ensures FirstByTagName(n, "allowableActions").None? ==> r == map[]
    ensures FirstByTagName(n, "allowableActions").Some? ==> r == ActionsOf(FirstByTagName(n, "allowableActions").value)
  {
    match FirstByTagName(n, "allowableActions")
    case None => map[]
    case Some(c) => ActionsOf(c)
  }

  /**
   * Each child element names an action, which is true iff the text of the
   * last child element of that name reads `true` (any case).
   */
  lemma ActionValue(c: Node, action: string)
    ensures var es := ElementChildren(c);
            action in ActionsOf(c) <==> exists i :: 0 <= i < |es| && es[i].local == action
    ensures var es := ElementChildren(c);
            action in ActionsOf(c) ==>
              exists i :: 0 <= i < |es| && es[i].local == action
                && (ActionsOf(c)[action] <==> IsTrueText(TextContent(es[i])))
                && forall j :: i < j < |es| ==> es[j].local != action
  {
    ActionPresent(c, action);
    if action in ActionsOf(c) {
      ActionLast(c, action);
    }
  }

  lemma ActionPresent(c: Node, action: string)
    ensures var es := ElementChildren(c);
            action in ActionsOf(c) <==> exists i :: 0 <= i < |es| && es[i].local == action
  {
    var es := ElementChildren(c);
    var ps := ActionPairs(es);
    AssignLastWins(map[], ps, action);
    if exists i :: 0 <= i < |es| && es[i].local == action {
      var i :| 0 <= i < |es| && es[i].local == action;
      assert ps[i].0 == action;
    }
  }

  lemma ActionLast(c: Node, action: string)
    requires action in ActionsOf(c)
    ensures var es := ElementChildren(c);
            exists i :: 0 <= i < |es| && es[i].local == action
              && (ActionsOf(c)[action] <==> IsTrueText(TextContent(es[i])))
              && forall j :: i < j < |es| ==> es[j].local != action
  {
    var es := ElementChildren(c);
    var ps := ActionPairs(es);
    AssignLastWins(map[], ps, action);
    var i := LastIndex(ps, action);
    assert 0 <= i < |es| && es[i].local == action;
  }

  /** What the pattern accepts: exactly `true` and `true` plus a newline, ignoring case. */
  lemma TrueTextCases(s: string)
    ensures IsTrueText(s) <==>
              ((|s| == 4 || |s| == 5) && (|s| == 5 ==> s[4] == '\n')
               && s[0] in "tT" && s[1] in "rR" && s[2] in "uU" && s[3] in "eE")
  {
  }
}
