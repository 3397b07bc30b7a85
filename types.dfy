/**
 * extractTypeDefFromNode and extractTypeFeedFromNode: the children of a
 * `cmisra:type` element split into property definitions and attributes.
 */
module Types {
  import opened Wrappers
  import opened Php
  import opened Xml
  import opened Links

  /** The two fields kept from a property definition (missing ones read as ""). */
  datatype PropertyDef = PropertyDef(propertyType: string, cardinality: string)

  /**
   * One extracted type definition. The source also has a `children` feed,
   * but it is never filled (see README), so it has no field here.
   */
  datatype TypeDef = TypeDef(
    id: string,
    links: map<string, string>,
    properties: map<string, PropertyDef>,
    attributes: map<string, string>)

  datatype TypeFeed = TypeFeed(objectList: seq<TypeDef>, objectsById: map<string, TypeDef>)

  const PROPERTY_PREFIX := "cmis:property"
  const DEFINITION_SUFFIX := "Definition"

  /** substr(name, 0, 13) == "cmis:property" && substr(name, -10) == "Definition". */
  predicate IsDefinitionName(name: string) {
    |name| >= |PROPERTY_PREFIX| && name[..|PROPERTY_PREFIX|] == PROPERTY_PREFIX
    && |name| >= |DEFINITION_SUFFIX| && name[|name| - |DEFINITION_SUFFIX|..] == DEFINITION_SUFFIX
  }

  predicate IsDefinition(n: Node) {
    n.Element? && IsDefinitionName(NodeName(n))
  }

  /** The XPath `//cmisra:type/` + `*` on the node: the children of every cmisra:type element, in document order. */
  function TypeChildren(n: Node): (cs: seq<Node>)
    ensures forall i :: 0 <= i < |cs| ==> cs[i].Element?
  {
    Query(n, Some(Named(CMISRA_NS, "type")), AnyElement)
  }

  /** The children that are not property definitions. */
  predicate IsOther(n: Node) {
    n.Element? && !IsDefinition(n)
  }

  /** The children that pass `keep`, in document order. */
  function Filter(cs: seq<Node>, keep: Node -> bool): (fs: seq<Node>)
    ensures forall i :: 0 <= i < |fs| ==> keep(fs[i]) && fs[i] in cs
    ensures forall c :: c in cs && keep(c) ==> c in fs
    decreases |cs|
  {
    if cs == [] then []
    else
      var last := cs[|cs| - 1];
      assert forall c :: c in cs ==> c in cs[..|cs| - 1] || c == last;
      Filter(cs[..|cs| - 1], keep) + (if keep(last) then [last] else [])
  }

  /** The (key, value) pair each node is stored as. */
  function Pairs<V>(ns: seq<Node>, pair: Node -> (string, V)): (ps: seq<(string, V)>)
    ensures |ps| == |ns|
    ensures forall i :: 0 <= i < |ns| ==> ps[i] == pair(ns[i])
  {
    seq(|ns|, i requires 0 <= i < |ns| => pair(ns[i]))
  }

  function Definitions(cs: seq<Node>): (ds: seq<Node>)
    ensures forall i :: 0 <= i < |ds| ==> IsDefinition(ds[i]) && ds[i] in cs
    ensures forall c :: c in cs && IsDefinition(c) ==> c in ds
  {
    Filter(cs, IsDefinition)
  }

  function Others(cs: seq<Node>): (os: seq<Node>)
    ensures forall i :: 0 <= i < |os| ==> os[i].Element? && !IsDefinition(os[i]) && os[i] in cs
    ensures forall c :: c in cs && c.Element? && !IsDefinition(c) ==> c in os
  {
    Filter(cs, IsOther)
  }

  /** A definition node as stored: keyed by its first `id`, with its first propertyType and cardinality. */
  function DefinitionPair(d: Node): (string, PropertyDef) {
    (FirstTextOr(d, "id"), PropertyDef(FirstTextOr(d, "propertyType"), FirstTextOr(d, "cardinality")))
  }

  /** Any other element as stored: its text under its qualified name. */
  function AttributePair(c: Node): (string, string) {
    if c.Element? then (NodeName(c), TextContent(c)) else ("", "")
  }

  function DefinitionPairs(ds: seq<Node>): (ps: seq<(string, PropertyDef)>)
    ensures |ps| == |ds|
    ensures forall i :: 0 <= i < |ds| ==>
              ps[i] == (FirstTextOr(ds[i], "id"), PropertyDef(FirstTextOr(ds[i], "propertyType"), FirstTextOr(ds[i], "cardinality")))
  {
    Pairs(ds, DefinitionPair)
  }

  function AttributePairs(os: seq<Node>): (ps: seq<(string, string)>)
    requires forall i :: 0 <= i < |os| ==> os[i].Element?
    ensures |ps| == |os|
    ensures forall i :: 0 <= i < |os| ==> ps[i] == (NodeName(os[i]), TextContent(os[i]))
  {
    Pairs(os, AttributePair)
  }

  /**
   * Storing the kept children one by one, each under its own key: a key
   * holds the value of the LAST kept child with that key.
   */
  /** Position of the last kept child stored under key k, or -1. */
  function LastKept<V>(cs: seq<Node>, keep: Node -> bool, pair: Node -> (string, V), k: string): (i: int)
    ensures -1 <= i < |cs|
    ensures i >= 0 ==> keep(cs[i]) && pair(cs[i]).0 == k
                       && forall j :: i < j < |cs| ==> !keep(cs[j]) || pair(cs[j]).0 != k
    ensures i < 0 ==> forall j :: 0 <= j < |cs| ==> !keep(cs[j]) || pair(cs[j]).0 != k
    decreases |cs|
  {
    if cs == [] then -1
    else if keep(cs[|cs| - 1]) && pair(cs[|cs| - 1]).0 == k then |cs| - 1
    else LastKept(cs[..|cs| - 1], keep, pair, k)
  }

  /**
   * Storing the kept children one by one, each under its own key: a key is
   * present iff some kept child has it, and holds the value of the LAST one.
   */
  lemma {:induction false} FilteredLastWins<V>(cs: seq<Node>, keep: Node -> bool, pair: Node -> (string, V), k: string)
    ensures var m, i := Assign(map[], Pairs(Filter(cs, keep), pair)), LastKept(cs, keep, pair, k);
            (k in m <==> i >= 0) && (k in m ==> m[k] == pair(cs[i]).1)
    decreases |cs|
  {
    if cs != [] {
      FilteredLastWins(cs[..|cs| - 1], keep, pair, k);
      FilteredStep(cs, keep, pair);
    }
  }

  /** One more child: a kept child is stored over what the earlier ones left. */
  lemma FilteredStep<V>(cs: seq<Node>, keep: Node -> bool, pair: Node -> (string, V))
    requires cs != []
    ensures var init, last := cs[..|cs| - 1], cs[|cs| - 1];
            var m0 := Assign(map[], Pairs(Filter(init, keep), pair));
            Assign(map[], Pairs(Filter(cs, keep), pair)) == if keep(last) then m0[pair(last).0 := pair(last).1] else m0
  {
    var init, last := cs[..|cs| - 1], cs[|cs| - 1];
    var ps0, ps := Pairs(Filter(init, keep), pair), Pairs(Filter(cs, keep), pair);
    if keep(last) {
      assert ps[..|ps| - 1] == ps0;
    } else {
      assert ps == ps0;
    }
  }

  /** extractTypeDefFromNode. */
  function ExtractTypeDef(n: Node): (t: TypeDef)
    ensures t.links == GetLinksArray(n)
    ensures t.id == TextAt(t.attributes, "cmis:id")
  {
    var cs := TypeChildren(n);
    var attributes := Assign(map[], AttributePairs(Others(cs)));
    TypeDef(
      TextAt(attributes, "cmis:id"),
      GetLinksArray(n),
      Assign(map[], DefinitionPairs(Definitions(cs))),
      attributes)
  }

  /**
   * Every child of a cmisra:type lands in exactly one map, decided by its
   * name alone: a definition under its id in `properties` ...
   */
  lemma DefinitionKeys(n: Node, k: string)
    ensures k in ExtractTypeDef(n).properties <==>
              exists c :: c in TypeChildren(n) && IsDefinition(c) && FirstTextOr(c, "id") == k
  {
    var cs := TypeChildren(n);
    var ds := Definitions(cs);
    assert ExtractTypeDef(n).properties == Assign(map[], DefinitionPairs(ds));
    DefinitionPairKeys(ds, k);
    if exists c :: c in cs && IsDefinition(c) && FirstTextOr(c, "id") == k {
      var c :| c in cs && IsDefinition(c) && FirstTextOr(c, "id") == k;
      assert c in ds;
    }
  }

  lemma DefinitionPairKeys(ds: seq<Node>, k: string)
    ensures k in Assign(map[], DefinitionPairs(ds)) <==> exists c :: c in ds && FirstTextOr(c, "id") == k
  {
    var dps := DefinitionPairs(ds);
    AssignLastWins(map[], dps, k);
    if exists c :: c in ds && FirstTextOr(c, "id") == k {
      var c :| c in ds && FirstTextOr(c, "id") == k;
      var i :| 0 <= i < |ds| && ds[i] == c;
      assert dps[i].0 == k;
    }
  }

  /** ... and anything else under its qualified name in `attributes`. */
  lemma AttributeKeys(n: Node, k: string)
    ensures k in ExtractTypeDef(n).attributes <==>
              exists c :: c in TypeChildren(n) && !IsDefinition(c) && NodeName(c) == k
    ensures k in ExtractTypeDef(n).attributes ==> !IsDefinitionName(k)
  {
    var cs := TypeChildren(n);
    assert ExtractTypeDef(n).attributes == Assign(map[], AttributePairs(Others(cs)));
    AttributesOf(cs, k);
  }

  lemma AttributesOf(cs: seq<Node>, k: string)
    requires forall i :: 0 <= i < |cs| ==> cs[i].Element?
    ensures k in Assign(map[], AttributePairs(Others(cs))) <==>
              exists c :: c in cs && !IsDefinition(c) && NodeName(c) == k
    ensures k in Assign(map[], AttributePairs(Others(cs))) ==> !IsDefinitionName(k)
  {
    var os := Others(cs);
    var ops := AttributePairs(os);
    AssignLastWins(map[], ops, k);
    if exists c :: c in cs && !IsDefinition(c) && NodeName(c) == k {
      var c :| c in cs && !IsDefinition(c) && NodeName(c) == k;
      assert c.Element? by {
        var j :| 0 <= j < |cs| && cs[j] == c;
      }
      OtherPosition(os, c, k);
    }
    if k in Assign(map[], ops) {
      var i := LastIndex(ops, k);
      assert !IsDefinition(os[i]) && os[i] in cs;
    }
  }

  lemma OtherPosition(os: seq<Node>, c: Node, k: string)
    requires forall i :: 0 <= i < |os| ==> os[i].Element?
    requires c in os && NodeName(c) == k
    ensures LastIndex(AttributePairs(os), k) >= 0
  {
    var i :| 0 <= i < |os| && os[i] == c;
    assert AttributePairs(os)[i].0 == k;
  }

  /**
   * A definition holds the texts of the first propertyType and cardinality
   * elements of the LAST definition child with that id: each child
   * overwrites `properties[id]`.
   */
  lemma DefinitionFields(n: Node, k: string)
    ensures var cs, p := TypeChildren(n), ExtractTypeDef(n).properties;
            k in p ==>
              exists i :: 0 <= i < |cs| && IsDefinition(cs[i]) && FirstTextOr(cs[i], "id") == k
                && p[k] == PropertyDef(FirstTextOr(cs[i], "propertyType"), FirstTextOr(cs[i], "cardinality"))
                && forall j :: i < j < |cs| ==> !IsDefinition(cs[j]) || FirstTextOr(cs[j], "id") != k
  {
    var cs := TypeChildren(n);
    FilteredLastWins(cs, IsDefinition, DefinitionPair, k);
    var i := LastKept(cs, IsDefinition, DefinitionPair, k);
    if i >= 0 {
      assert IsDefinition(cs[i]) && FirstTextOr(cs[i], "id") == k;
    }
  }

  /**
   * An attribute holds the text of the LAST non-definition child with that
   * qualified name: each child overwrites `attributes[nodeName]`.
   */
  lemma AttributeOf(n: Node, k: string)
    ensures var cs, a := TypeChildren(n), ExtractTypeDef(n).attributes;
            k in a ==>
              exists i :: 0 <= i < |cs| && !IsDefinition(cs[i]) && NodeName(cs[i]) == k
                && a[k] == TextContent(cs[i])
                && forall j :: i < j < |cs| ==> NodeName(cs[j]) != k
  {
    var cs := TypeChildren(n);
    assert ExtractTypeDef(n).attributes == Assign(map[], AttributePairs(Others(cs)));
    AttributeLast(cs, k);
  }

  lemma AttributeLast(cs: seq<Node>, k: string)
    requires forall i :: 0 <= i < |cs| ==> cs[i].Element?
    ensures var a := Assign(map[], AttributePairs(Others(cs)));
            k in a ==>
              exists i :: 0 <= i < |cs| && !IsDefinition(cs[i]) && NodeName(cs[i]) == k
                && a[k] == TextContent(cs[i])
                && forall j :: i < j < |cs| ==> NodeName(cs[j]) != k
  {
    FilteredLastWins(cs, IsOther, AttributePair, k);
    var i := LastKept(cs, IsOther, AttributePair, k);
    if i >= 0 {
      forall j | i < j < |cs|
        ensures NodeName(cs[j]) != k
      {
        assert !IsOther(cs[j]) || AttributePair(cs[j]).0 != k;
        assert !IsDefinitionName(k);
      }
    }
  }

  /**
   * The definition's id is the text of the last `cmis:id` child of the
   * cmisra:type element, and "" when there is none.
   */
  lemma TypeDefId(n: Node)
    ensures var cs := TypeChildren(n);
            (forall i :: 0 <= i < |cs| ==> NodeName(cs[i]) != "cmis:id") ==> ExtractTypeDef(n).id == ""
    ensures var cs := TypeChildren(n);
            (exists i :: 0 <= i < |cs| && NodeName(cs[i]) == "cmis:id") ==>
              exists i :: 0 <= i < |cs| && NodeName(cs[i]) == "cmis:id" && ExtractTypeDef(n).id == TextContent(cs[i])
                && forall j :: i < j < |cs| ==> NodeName(cs[j]) != "cmis:id"
  {
    var cs := TypeChildren(n);
    assert !IsDefinitionName("cmis:id");
    AttributeKeys(n, "cmis:id");
    AttributeOf(n, "cmis:id");
    if exists i :: 0 <= i < |cs| && NodeName(cs[i]) == "cmis:id" {
      var i :| 0 <= i < |cs| && NodeName(cs[i]) == "cmis:id";
      assert cs[i] in cs && !IsDefinition(cs[i]);
    }
  }

  function TypeId(t: TypeDef): string {
    t.id
  }

  /** The definitions of the feed's entries, in document order. */
  function TypeDefs(ctx: Node): (defs: seq<TypeDef>)
    ensures |defs| == |FeedEntries(ctx)|
    ensures forall i :: 0 <= i < |defs| ==> defs[i] == ExtractTypeDef(FeedEntries(ctx)[i])
  {
    var es := FeedEntries(ctx);
    seq(|es|, i requires 0 <= i < |es| => ExtractTypeDef(es[i]))
  }

  /** extractTypeFeedFromNode: one definition per entry, list slots by reference. */
  function ExtractTypeFeed(ctx: Node): (f: TypeFeed)
    ensures |f.objectList| == |FeedEntries(ctx)|
  {
    TypeFeed(RefSlots(TypeDefs(ctx), TypeId), ById(TypeDefs(ctx), TypeId))
  }

  /** Each list slot shows the last definition in the feed with its own entry's id. */
  lemma TypeFeedSlots(ctx: Node, i: nat)
    requires i < |FeedEntries(ctx)|
    ensures var defs := TypeDefs(ctx);
            exists j :: i <= j < |defs| && ExtractTypeFeed(ctx).objectList[i] == defs[j]
              && defs[j].id == defs[i].id
              && forall l :: j < l < |defs| ==> defs[l].id != defs[i].id
  {
    RefSlotShowsLast(TypeDefs(ctx), TypeId, i);
  }
}
