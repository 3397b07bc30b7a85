/**
 * extractObjectFromNode and extractObjectFeedFromNode: an Atom entry
 * becomes an object record, a feed becomes a list of records plus a map
 * from object id to record.
 */
module Objects {
  import opened Wrappers
  import opened Php
  import opened Status
  import opened Xml
  import opened Links

  /** One extracted CMIS object. */
  datatype ObjectRecord = ObjectRecord(
    id: string,                                   // properties["cmis:objectId"]; "" when absent
    uuid: Value,                                  // text of the first `id` element, null when none
    links: map<string, string>,
    properties: map<string, Value>,
    renditions: map<nat, map<string, string>>,
    allowableActions: map<string, bool>,
    children: Option<ObjectFeed>)

  /**
   * One extracted feed. Every list slot is a PHP reference to the by-id slot
   * of its entry's id, so it shows the last entry with that id.
   */
  datatype ObjectFeed = ObjectFeed(
    numItems: int,
    objectList: seq<ObjectRecord>,
    objectsById: map<string, ObjectRecord>)

  function Malformed(what: string): CmisError {
    CmisError(ParseFailure, what, 0)
  }

  // ---- properties ----

  /** The texts of the `value` elements below a property node, in document order. */
  function ValueTexts(pn: Node): (vs: seq<string>)
    ensures |vs| == |ElementsByTagName(pn, "value")|
  {
    var es := ElementsByTagName(pn, "value");
    seq(|es|, i requires 0 <= i < |es| => TextContent(es[i]))
  }

  /** A property node that sets its property: it has an id and at least one value. */
  predicate Defines(pn: Node) {
    pn.Element? && "propertyDefinitionId" in pn.attrs && |ValueTexts(pn)| > 0
  }

  function PropertyId(pn: Node): string
    requires Defines(pn)
  {
    pn.attrs["propertyDefinitionId"]
  }

  /** One value is stored as a scalar, several as a list in document order. */
  function PropertyValue(vs: seq<string>): (v: Value)
    requires |vs| > 0
    ensures |vs| == 1 ==> v == Str(vs[0])
    ensures |vs| > 1 ==> v == Arr(vs)
  {
    if |vs| == 1 then Str(vs[0]) else Arr(vs)
  }

  /** The element children of every `properties` element below the object element. */
  function PropertyNodes(containers: seq<Node>): seq<Node> {
    if containers == [] then [] else ElementChildren(containers[0]) + PropertyNodes(containers[1..])
  }

  /** The property nodes that set a property, in document order. */
  function Defining(pns: seq<Node>): (ds: seq<Node>)
    ensures forall i :: 0 <= i < |ds| ==> Defines(ds[i]) && ds[i] in pns
    ensures forall pn :: pn in pns && Defines(pn) ==> pn in ds
  {
    if pns == [] then []
    else (if Defines(pns[0]) then [pns[0]] else []) + Defining(pns[1..])
  }

  function PropertyPairs(ds: seq<Node>): (ps: seq<(string, Value)>)
    requires forall i :: 0 <= i < |ds| ==> Defines(ds[i])
    ensures |ps| == |ds|
    ensures forall i :: 0 <= i < |ds| ==> ps[i] == (PropertyId(ds[i]), PropertyValue(ValueTexts(ds[i])))
  {
    seq(|ds|, i requires 0 <= i < |ds| => (PropertyId(ds[i]), PropertyValue(ValueTexts(ds[i]))))
  }

  /** The property nodes of an object element that set a property. */
  function Setters(objectElement: Node): seq<Node> {
    Defining(PropertyNodes(ElementsByTagName(objectElement, "properties")))
  }

  /** The properties loop: each setting node assigns its property in turn. */
  function ExtractProperties(objectElement: Node): map<string, Value> {
    Assign(map[], PropertyPairs(Setters(objectElement)))
  }

  /**
   * A property is present iff some node sets it; it holds what the last
   * such node holds: its single value as a scalar, or all its values, in
   * document order, as a list. Nodes without an id or without a value
   * change nothing.
   */
  lemma PropertyRule(objectElement: Node, k: string)
    ensures var ds := Setters(objectElement);
            k in ExtractProperties(objectElement) <==> exists i :: 0 <= i < |ds| && PropertyId(ds[i]) == k
    ensures var ds := Setters(objectElement);
            k in ExtractProperties(objectElement) ==>
              exists i :: 0 <= i < |ds| && PropertyId(ds[i]) == k
                && (forall j :: i < j < |ds| ==> PropertyId(ds[j]) != k)
                && var vs := ValueTexts(ds[i]);
                   (|vs| == 1 ==> ExtractProperties(objectElement)[k] == Str(vs[0]))
                   && (|vs| > 1 ==> ExtractProperties(objectElement)[k] == Arr(vs))
  {
    PropertyPresent(objectElement, k);
    if k in ExtractProperties(objectElement) {
      PropertyLast(objectElement, k);
    }
  }

  lemma PropertyPresent(objectElement: Node, k: string)
    ensures var ds := Setters(objectElement);
            k in ExtractProperties(objectElement) <==> exists i :: 0 <= i < |ds| && PropertyId(ds[i]) == k
  {
    var ds := Setters(objectElement);
    var ps := PropertyPairs(ds);
    AssignLastWins(map[], ps, k);
    if exists i :: 0 <= i < |ds| && PropertyId(ds[i]) == k {
      var i :| 0 <= i < |ds| && PropertyId(ds[i]) == k;
      assert ps[i].0 == k;
    }
  }

  lemma PropertyLast(objectElement: Node, k: string)
    requires k in ExtractProperties(objectElement)
    ensures var ds := Setters(objectElement);
            exists i :: 0 <= i < |ds| && PropertyId(ds[i]) == k
              && (forall j :: i < j < |ds| ==> PropertyId(ds[j]) != k)
              && ExtractProperties(objectElement)[k] == PropertyValue(ValueTexts(ds[i]))
  {
    var ds := Setters(objectElement);
    var ps := PropertyPairs(ds);
    AssignLastWins(map[], ps, k);
    var i := LastIndex(ps, k);
    assert 0 <= i < |ds| && PropertyId(ds[i]) == k;
  }

  /**
   * getMultiValuedProp on an extracted property gives back the values of
   * the node that set it, except that a single empty value reads as no
   * value at all.
   */
  lemma MultiValuedOfSetter(pn: Node)
    requires Defines(pn)
    ensures var vs := ValueTexts(pn);
            GetAsArray(PropertyValue(vs)) == if vs == [""] then [] else vs
  {
  }

  // ---- renditions ----

  function FieldPairs(es: seq<Node>): (ps: seq<(string, string)>)
    requires forall i :: 0 <= i < |es| ==> es[i].Element?
    ensures |ps| == |es|
    ensures forall i :: 0 <= i < |es| ==> ps[i] == (es[i].local, TextContent(es[i]))
  {
    seq(|es|, i requires 0 <= i < |es| => (es[i].local, TextContent(es[i])))
  }

  /**
   * The renditions below the object element, numbered by position among
   * all renditions; one without element children leaves its number unused.
   */
  function ExtractRenditions(objectElement: Node): (r: map<nat, map<string, string>>)
    ensures var rs := ElementsByTagName(objectElement, "rendition");
            forall i: nat :: i in r <==> i < |rs| && ElementChildren(rs[i]) != []
    ensures var rs := ElementsByTagName(objectElement, "rendition");
            forall i: nat :: i in r ==> r[i].Keys == set c | c in ElementChildren(rs[i]) :: c.local
  {
    var rs := ElementsByTagName(objectElement, "rendition");
    map i: nat | i < |rs| && ElementChildren(rs[i]) != [] :: RenditionFields(rs[i])
  }

  /** The fields of one rendition: child name to child text, a later child of the same name winning. */
  function RenditionFields(rendition: Node): (m: map<string, string>)
    ensures m.Keys == set c | c in ElementChildren(rendition) :: c.local
  {
    FieldKeys(ElementChildren(rendition));
    Assign(map[], FieldPairs(ElementChildren(rendition)))
  }

  lemma FieldKeys(es: seq<Node>)
    requires forall i :: 0 <= i < |es| ==> es[i].Element?
    ensures Assign(map[], FieldPairs(es)).Keys == set c | c in es :: c.local
  {
    var ps := FieldPairs(es);
    AssignKeys(ps);
    var a := set i | 0 <= i < |ps| :: ps[i].0;
    var b := set c | c in es :: c.local;
    forall k | k in a ensures k in b {
      var i :| 0 <= i < |ps| && ps[i].0 == k;
      assert es[i] in es;
    }
    forall k | k in b ensures k in a {
      var c :| c in es && c.local == k;
      var i :| 0 <= i < |es| && es[i] == c;
      assert ps[i].0 == k;
    }
  }

  // ---- objects and feeds ----

  /** The id an object is keyed by: a null id is the key "". */
  function IdOf(v: Value): string
    requires !v.Arr?
  {
    if v.Str? then v.s else ""
  }

  /**
   * extractObjectFromNode. A node without an `object` element below it is
   * malformed (PHP stops with a call on null), and so is a multi-valued
   * cmis:objectId (PHP stops when it is used as an array key).
   */
  function ExtractObject(n: Node): (r: Result<ObjectRecord, CmisError>)
    ensures FirstByTagName(n, "object").None? ==> r.Failure?
    ensures r.Failure? ==> r.error.kind == ParseFailure
    ensures r.Success? ==>
              var objectElement := FirstByTagName(n, "object").value;
              var id := Lookup(ExtractProperties(objectElement), "cmis:objectId");
              !id.Arr? && r.value.id == IdOf(id)
              && r.value.properties == ExtractProperties(objectElement)
              && r.value.links == GetLinksArray(n)
              && r.value.uuid == FirstText(n, "id")
              && r.value.allowableActions == ExtractAllowableActions(n)
    decreases Size(n), 2, 0
  {
    match FirstByTagName(n, "object")
    case None => Failure(Malformed("response has no object element"))
    case Some(objectElement) =>
      var properties := ExtractProperties(objectElement);
      var id := Lookup(properties, "cmis:objectId");
      if id.Arr? then Failure(Malformed("cmis:objectId is multi-valued"))
      else
        var children :- ExtractChildren(n);
        Success(ObjectRecord(
          IdOf(id), FirstText(n, "id"), GetLinksArray(n), properties,
          ExtractRenditions(objectElement), ExtractAllowableActions(n), children))
  }

  /**
   * The nested children: the first `feed` below the first `children`
   * element below `n`, extracted as a feed document of its own.
   */
  function ExtractChildren(n: Node): (r: Result<Option<ObjectFeed>, CmisError>)
    ensures r.Success? && r.value.Some? ==>
              FirstByTagName(n, "children").Some?
              && FirstByTagName(FirstByTagName(n, "children").value, "feed").Some?
    ensures FirstByTagName(n, "children").None? ==> r == Success(None)
    decreases Size(n), 1, 1
  {
    match FirstByTagName(n, "children")
    case None => Success(None)
    case Some(c) =>
      match FirstByTagName(c, "feed")
      case None => Success(None)
      case Some(feed) =>
        var doc := Document([feed]);
        assert Size(doc) < Size(n) by {
          assert SizeSeq([feed]) == Size(feed) + SizeSeq([feed][1..]);
        }
        var f :- ExtractObjectFeed(doc);
        Success(Some(f))
  }

  /** numItems: the (int) of `/atom:feed/cmisra:numItems`, or -1 without one. */
  function NumItems(ctx: Node): int {
    var ns := AbsolutePath(ctx, Named(ATOM_NS, "feed"), Named(CMISRA_NS, "numItems"));
    if ns == [] then -1 else IntVal(TextContent(ns[0]))
  }

  /** extractObjectFeedFromNode: one record per `/atom:feed/atom:entry`, in document order. */
  function ExtractObjectFeed(ctx: Node): (r: Result<ObjectFeed, CmisError>)
    ensures r.Failure? ==> r.error.kind == ParseFailure
    ensures r.Success? ==> r.value.numItems == NumItems(ctx) && |r.value.objectList| == |FeedEntries(ctx)|
    decreases Size(ctx), 1, 0
  {
    var records :- ExtractEntries(FeedEntries(ctx), Size(ctx));
    Success(MakeFeed(NumItems(ctx), records))
  }

  /** The entries in order; the first malformed one stops the extraction. */
  function ExtractEntries(es: seq<Node>, bound: nat): (r: Result<seq<ObjectRecord>, CmisError>)
    requires forall i :: 0 <= i < |es| ==> Size(es[i]) < bound
    ensures r.Failure? ==> r.error.kind == ParseFailure
    ensures r.Success? ==> |r.value| == |es|
    ensures r.Success? ==> forall i :: 0 <= i < |es| ==> ExtractObject(es[i]) == Success(r.value[i])
    decreases bound, 0
  {
    FirstFailure(seq(|es|, i requires 0 <= i < |es| => ExtractObject(es[i])))
  }

  /** All values when every step succeeded, otherwise the error of the first step that failed. */
  function FirstFailure<T>(rs: seq<Result<T, CmisError>>): (r: Result<seq<T>, CmisError>)
    ensures r.Success? ==> |r.value| == |rs| && forall i :: 0 <= i < |rs| ==> rs[i] == Success(r.value[i])
    ensures r.Failure? ==> exists i :: 0 <= i < |rs| && rs[i] == Failure(r.error)
                             && forall j :: 0 <= j < i ==> rs[j].Success?
  {
    if rs == [] then Success([])
    else if rs[0].Failure? then Failure(rs[0].error)
    else
      var rest :- FirstFailure(rs[1..]);
      assert forall i :: 1 <= i < |rs| ==> rs[i] == rs[1..][i - 1];
      Success([rs[0].value] + rest)
  }

  function RecordId(r: ObjectRecord): string {
    r.id
  }

  /** The feed object: the list slot of each entry reads the by-id slot of its id. */
  function MakeFeed(numItems: int, records: seq<ObjectRecord>): (f: ObjectFeed)
    ensures f.numItems == numItems && |f.objectList| == |records|
  {
    ObjectFeed(numItems, RefSlots(records, RecordId), ById(records, RecordId))
  }

  /**
   * Each list slot holds the last record with its own entry's id, so a
   * record with a unique id sits in its own slot, and the map is keyed by
   * exactly the entries' ids.
   */
  lemma FeedSlots(numItems: int, records: seq<ObjectRecord>, i: nat)
    requires i < |records|
    ensures var f := MakeFeed(numItems, records);
            exists j :: i <= j < |records| && f.objectList[i] == records[j]
              && records[j].id == records[i].id
              && forall l :: j < l < |records| ==> records[l].id != records[i].id
    ensures var f := MakeFeed(numItems, records);
            (forall l :: 0 <= l < |records| && l != i ==> records[l].id != records[i].id)
              ==> f.objectList[i] == records[i]
    ensures var f := MakeFeed(numItems, records);
            records[i].id in f.objectsById && f.objectList[i] == f.objectsById[records[i].id]
  {
    RefSlotShowsLast(records, RecordId, i);
  }

  lemma FeedKeys(numItems: int, records: seq<ObjectRecord>, k: string)
    ensures k in MakeFeed(numItems, records).objectsById <==> exists i :: 0 <= i < |records| && records[i].id == k
  {
    ByIdKeys(records, RecordId, k);
  }

  /**
   * A numItems element holding a decimal count (after any blanks) gives
   * that count, or PHP_INT_MAX for a count past PHP's integer range.
   */
  lemma NumItemsOf(ctx: Node, n: nat, blanks: string)
    requires forall i :: 0 <= i < |blanks| ==> IsSpace(blanks[i])
    requires var ns := AbsolutePath(ctx, Named(ATOM_NS, "feed"), Named(CMISRA_NS, "numItems"));
             ns != [] && TextContent(ns[0]) == blanks + DecimalString(n)
    ensures NumItems(ctx) == if n <= PHP_INT_MAX then n else PHP_INT_MAX
  {
    IntValRoundTrip(n, blanks);
  }
}
