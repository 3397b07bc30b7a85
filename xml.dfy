/**
 * The parsed response document as the extractors see it, and the three ways
 * they look into it: DOM getElementsByTagName (local name, all descendants),
 * XPath `//P/C` and `//C` steps (namespace and local name, document order),
 * and the absolute XPath `/P/C`.
 */
module Xml {
  import opened Wrappers
  import opened Php

  /** The four prefixes registered for every XPath query. */
  const CMIS_NS := "http://docs.oasis-open.org/ns/cmis/core/200908/"
  const CMISRA_NS := "http://docs.oasis-open.org/ns/cmis/restatom/200908/"
  const ATOM_NS := "http://www.w3.org/2005/Atom"
  const APP_NS := "http://www.w3.org/2007/app"

  /**
   * A document node, an element (namespace URI, prefix as written, local
   * name, attributes, children) or a text node.
   */
  datatype Node =
    | Document(children: seq<Node>)
    | Element(ns: string, prefix: string, local: string, attrs: map<string, string>, children: seq<Node>)
    | Text(text: string)

  function Kids(n: Node): seq<Node> {
    if n.Text? then [] else n.children
  }

  function Size(n: Node): nat {
    match n
    case Document(cs) => 1 + SizeSeq(cs)
    case Element(_, _, _, _, cs) => 1 + SizeSeq(cs)
    case Text(_) => 1
  }

  function SizeSeq(cs: seq<Node>): nat {
    if cs == [] then 0 else Size(cs[0]) + SizeSeq(cs[1..])
  }

  lemma SizeKids(n: Node)
    ensures Size(n) == 1 + SizeSeq(Kids(n))
  {
  }

  lemma {:induction false} SizeMember(cs: seq<Node>, i: nat)
    requires i < |cs|
    ensures Size(cs[i]) <= SizeSeq(cs)
  {
    if i > 0 {
      assert cs[1..][i - 1] == cs[i];
      SizeMember(cs[1..], i - 1);
    }
  }

  /** DOM nodeName: the qualified name as written. */
  function NodeName(n: Node): string
    requires n.Element?
  {
    if n.prefix == "" then n.local else n.prefix + ":" + n.local
  }

  /** DOM nodeValue: the text content of an element, null (here "") for a document. */
  function TextContent(n: Node): string {
    match n
    case Document(_) => ""
    case Element(_, _, _, _, cs) => TextSeq(cs)
    case Text(t) => t
  }

  function TextSeq(cs: seq<Node>): string {
    if cs == [] then "" else TextContent(cs[0]) + TextSeq(cs[1..])
  }

  /** getNamedItem(name)->nodeValue, with a missing attribute read as "". */
  function Attr(n: Node, name: string): string {
    if n.Element? && name in n.attrs then n.attrs[name] else ""
  }

  // ---- getElementsByTagName ----

  /** Every node of the trees `cs`, in document order. */
  function Subtrees(cs: seq<Node>): (ds: seq<Node>)
    ensures forall i :: 0 <= i < |ds| ==> Size(ds[i]) <= SizeSeq(cs)
    decreases SizeSeq(cs)
  {
    if cs == [] then []
    else
      SizeKids(cs[0]);
      [cs[0]] + Subtrees(Kids(cs[0])) + Subtrees(cs[1..])
  }

  function ByLocal(ds: seq<Node>, local: string): (r: seq<Node>)
    ensures |r| <= |ds|
    ensures forall i :: 0 <= i < |r| ==> r[i].Element? && r[i].local == local
    ensures forall i :: 0 <= i < |r| ==> exists j :: 0 <= j < |ds| && ds[j] == r[i]
  {
    if ds == [] then []
    else
      var rest := ByLocal(ds[1..], local);
      assert forall i :: 0 <= i < |rest| ==> exists j :: 0 <= j < |ds| && ds[j] == rest[i] by {
        forall i | 0 <= i < |rest| ensures exists j :: 0 <= j < |ds| && ds[j] == rest[i] {
          var j :| 0 <= j < |ds[1..]| && ds[1..][j] == rest[i];
          assert ds[j + 1] == rest[i];
        }
      }
      if ds[0].Element? && ds[0].local == local then [ds[0]] + rest else rest
  }

  /**
   * getElementsByTagName(local) on `n`: the elements below `n` with that
   * local name, whatever their prefix, in document order. On a document
   * node the root element is one of them.
   */
  function ElementsByTagName(n: Node, local: string): (r: seq<Node>)
    ensures forall i :: 0 <= i < |r| ==> r[i].Element? && r[i].local == local && Size(r[i]) < Size(n)
  {
    SizeKids(n);
    ByLocal(Subtrees(Kids(n)), local)
  }

  /** getElementsByTagName(local)->item(0). */
  function FirstByTagName(n: Node, local: string): (r: Option<Node>)
    ensures r.Some? ==> r.value.Element? && r.value.local == local && Size(r.value) < Size(n)
    ensures r.None? <==> ElementsByTagName(n, local) == []
  {
    var es := ElementsByTagName(n, local);
    if es == [] then None else Some(es[0])
  }

  /** getElementsByTagName(local)->item(0)->nodeValue, null when there is none. */
  function FirstText(n: Node, local: string): (v: Value)
    ensures v.Null? <==> FirstByTagName(n, local).None?
    ensures v.Str? ==> v.s == TextContent(FirstByTagName(n, local).value)
  {
    match FirstByTagName(n, local)
    case None => Null
    case Some(e) => Str(TextContent(e))
  }

  /** The same text where PHP goes on to use null as a string or a key, i.e. as "". */
  function FirstTextOr(n: Node, local: string): (s: string)
    ensures s == ToText(FirstText(n, local))
  {
    match FirstByTagName(n, local)
    case None => ""
    case Some(e) => TextContent(e)
  }

  // ---- XPath ----

  /** A node test of the queries: `*`, `ns:local`, or `*[name()!=a and name()!=b]`. */
  datatype Test = AnyElement | Named(ns: string, local: string) | NameIsNot(a: string, b: string)

  predicate Matches(t: Test, n: Node) {
    n.Element? &&
    match t
    case AnyElement => true
    case Named(ns, local) => n.ns == ns && n.local == local
    case NameIsNot(a, b) => NodeName(n) != a && NodeName(n) != b
  }

  /**
   * The elements of the trees `cs` that pass `child` and whose parent passes
   * `parent` (None: any parent), in document order; `parentOk` says whether
   * the parent of `cs` passes.
   */
  function Select(cs: seq<Node>, parentOk: bool, parent: Option<Test>, child: Test): (r: seq<Node>)
    ensures forall i :: 0 <= i < |r| ==> Matches(child, r[i])
    decreases SizeSeq(cs)
  {
    if cs == [] then []
    else
      var c := cs[0];
      SizeKids(c);
      var here := if parentOk && Matches(child, c) then [c] else [];
      var ok := parent.None? || Matches(parent.value, c);
      here + Select(Kids(c), ok, parent, child) + Select(cs[1..], parentOk, parent, child)
  }

  /**
   * A query node becomes the root of a fresh document before the query runs
   * (importNode); a document is queried as it is.
   */
  function DocChildren(ctx: Node): seq<Node> {
    if ctx.Document? then ctx.children else [ctx]
  }

  /** `//child` (parent None) or `//parent/child` evaluated on `ctx`. */
  function Query(ctx: Node, parent: Option<Test>, child: Test): (r: seq<Node>)
    ensures forall i :: 0 <= i < |r| ==> Matches(child, r[i])
  {
    Select(DocChildren(ctx), parent.None?, parent, child)
  }

  function ChildrenMatching(cs: seq<Node>, t: Test): (r: seq<Node>)
    ensures |r| <= |cs|
    ensures forall i :: 0 <= i < |r| ==> Matches(t, r[i]) && Size(r[i]) <= SizeSeq(cs) && r[i] in cs
    ensures forall c :: c in cs && Matches(t, c) ==> c in r
  {
    if cs == [] then []
    else (if Matches(t, cs[0]) then [cs[0]] else []) + ChildrenMatching(cs[1..], t)
  }

  function GrandChildren(cs: seq<Node>, outer: Test, inner: Test): (r: seq<Node>)
    ensures forall i :: 0 <= i < |r| ==> Matches(inner, r[i]) && Size(r[i]) < SizeSeq(cs)
  {
    if cs == [] then []
    else
      var here := if Matches(outer, cs[0]) then ChildrenMatching(cs[0].children, inner) else [];
      SizeKids(cs[0]);
      here + GrandChildren(cs[1..], outer, inner)
  }

  /** The absolute path `/outer/inner` evaluated on `ctx`. */
  function AbsolutePath(ctx: Node, outer: Test, inner: Test): (r: seq<Node>)
    ensures forall i :: 0 <= i < |r| ==> Matches(inner, r[i]) && Size(r[i]) < Size(ctx)
  {
    GrandChildren(DocChildren(ctx), outer, inner)
  }

  /** `/atom:feed/atom:entry`: the entries of a feed document, in document order. */
  function FeedEntries(ctx: Node): (es: seq<Node>)
    ensures forall i :: 0 <= i < |es| ==> Size(es[i]) < Size(ctx)
  {
    AbsolutePath(ctx, Named(ATOM_NS, "feed"), Named(ATOM_NS, "entry"))
  }

  /** getElementsByTagName sees every element of the subtree, so item(0) is the first one in document order. */
  lemma {:induction false} FirstIsEarliest(cs: seq<Node>, local: string, j: nat)
    requires j < |Subtrees(cs)| && Subtrees(cs)[j].Element? && Subtrees(cs)[j].local == local
    ensures ByLocal(Subtrees(cs), local) != []
    ensures exists i :: 0 <= i <= j && Subtrees(cs)[i] == ByLocal(Subtrees(cs), local)[0]
  {
    ByLocalFirst(Subtrees(cs), local, j);
  }

  lemma {:induction false} ByLocalFirst(ds: seq<Node>, local: string, j: nat)
    requires j < |ds| && ds[j].Element? && ds[j].local == local
    ensures ByLocal(ds, local) != []
    ensures exists i :: 0 <= i <= j && ds[i] == ByLocal(ds, local)[0]
  {
    if !(ds[0].Element? && ds[0].local == local) {
      assert j > 0;
      assert ds[1..][j - 1] == ds[j];
      ByLocalFirst(ds[1..], local, j - 1);
      var i :| 0 <= i <= j - 1 && ds[1..][i] == ByLocal(ds[1..], local)[0];
      assert ds[i + 1] == ByLocal(ds, local)[0];
    }
  }
}
