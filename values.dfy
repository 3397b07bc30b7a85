/**
 * The per-property state of processPropertyTemplates: the element-name
 * suffix each property type gets, and the `properties` entry that the loop
 * keeps in one array for all the properties it goes through.
 */
module PropertyValues {
  import opened Wrappers
  import opened Php
  import opened Templates
  import opened Pieces
  import opened Links

  // ---- processPropertyTemplates ----

  /** `$propertyTypeMap[$type]`: the element-name suffix of a known type; an unknown one reads as null, i.e. "". */
  function TypeTag(propertyType: string): string {
    match propertyType
    case "integer" => "Integer"
    case "boolean" => "Boolean"
    case "datetime" => "DateTime"
    case "decimal" => "Decimal"
    case "html" => "Html"
    case "id" => "Id"
    case "string" => "String"
    case "url" => "Url"
    case "xml" => "Xml"
    case _ => ""
  }

  function LowerText(s: string): (r: string)
    ensures |r| == |s| && forall i :: 0 <= i < |s| ==> r[i] == Lower(s[i])
  {
    seq(|s|, i requires 0 <= i < |s| => Lower(s[i]))
  }

  /** A known type's suffix is the type name written with capitals: lower-casing it gives the type back. */
  lemma TypeTagOf(propertyType: string)
    ensures TypeTag(propertyType) != "" ==> LowerText(TypeTag(propertyType)) == propertyType
  {
    match propertyType
    case "integer" => assert LowerText("Integer") == "integer";
    case "boolean" => assert LowerText("Boolean") == "boolean";
    case "datetime" => assert LowerText("DateTime") == "datetime";
    case "decimal" => assert LowerText("Decimal") == "decimal";
    case "html" => assert LowerText("Html") == "html";
    case "id" => assert LowerText("Id") == "id";
    case "string" => assert LowerText("String") == "string";
    case "url" => assert LowerText("Url") == "url";
    case "xml" => assert LowerText("Xml") == "xml";
    case _ =>
  }

  /** Every suffix is empty or a word, so it never opens a placeholder. */
  lemma TypeTagWord(propertyType: string)
    ensures TypeTag(propertyType) == "" || IsWord(TypeTag(propertyType))
  {
    match propertyType
    case "integer" => assert IsWord("Integer");
    case "boolean" => assert IsWord("Boolean");
    case "datetime" => assert IsWord("DateTime");
    case "decimal" => assert IsWord("Decimal");
    case "html" => assert IsWord("Html");
    case "id" => assert IsWord("Id");
    case "string" => assert IsWord("String");
    case "url" => assert IsWord("Url");
    case "xml" => assert IsWord("Xml");
    case _ =>
  }

  /** sprintf('<cmis:value>%s</cmis:value>', $val) for each item, joined. */
  function ValueElements(items: seq<string>): string {
    if items == [] then "" else "<cmis:value>" + (items[0] + ("</cmis:value>" + ValueElements(items[1..])))
  }

  lemma {:induction false} ValueElementsAppend(a: seq<string>, b: seq<string>)
    ensures ValueElements(a + b) == ValueElements(a) + ValueElements(b)
  {
    if a == [] {
      assert a + b == b;
    } else {
      assert (a + b)[1..] == a[1..] + b;
      ValueElementsAppend(a[1..], b);
    }
  }

  /** One sprintf('<cmis:value>%s</cmis:value>', $val). */
  function ValueElement(item: string): string {
    "<cmis:value>" + item + "</cmis:value>"
  }

  /** One more item appends its own element to those of the items before it. */
  lemma ValueElementsSnoc(items: seq<string>, item: string)
    ensures ValueElements(items + [item]) == ValueElements(items) + ValueElement(item)
  {
    ValueElementsAppend(items, [item]);
    assert [item][1..] == [];
    AppendEmpty("</cmis:value>");
    ConcatAssoc("<cmis:value>", item, "</cmis:value>");
  }

  /**
   * The `properties` entry after one more property: each item of an array
   * is appended (`.=`) to what is already there, an empty array leaves it
   * as it is, and any other value replaces it.
   */
  function NextSlot(slot: Option<string>, v: Value): Option<string> {
    match v
    case Arr(items) =>
      if items == [] then slot else Some((if slot.Some? then slot.value else "") + ValueElements(items))
    case _ => Some(ToText(v))
  }

  /** The `properties` entry once the values `vs` have gone through the loop; None while it is unset. */
  function SlotAfter(vs: seq<Value>): Option<string>
    decreases |vs|
  {
    if vs == [] then None else NextSlot(SlotAfter(vs[..|vs| - 1]), vs[|vs| - 1])
  }

  predicate AllArrays(vs: seq<Value>) {
    forall i :: 0 <= i < |vs| ==> vs[i].Arr?
  }

  /** The items of all the arrays among `vs`, in order. */
  function Items(vs: seq<Value>): seq<string>
    decreases |vs|
  {
    if vs == [] then [] else Items(vs[..|vs| - 1]) + (if vs[|vs| - 1].Arr? then vs[|vs| - 1].items else [])
  }

  /** While only arrays have come by, the entry holds the value elements of all their items. */
  lemma {:induction false} SlotOfArrays(vs: seq<Value>)
    requires AllArrays(vs)
    ensures SlotAfter(vs) == if Items(vs) == [] then None else Some(ValueElements(Items(vs)))
    decreases |vs|
  {
    if vs != [] {
      var front := vs[..|vs| - 1];
      SlotOfArrays(front);
      ValueElementsAppend(Items(front), vs[|vs| - 1].items);
      if Items(front) == [] {
        assert Items(front) + vs[|vs| - 1].items == vs[|vs| - 1].items;
      }
      if vs[|vs| - 1].items == [] {
        assert Items(vs) == Items(front);
      }
    }
  }

  /**
   * The entry is never cleared between properties: after a scalar it holds
   * that scalar's text followed by the items of every array after it.
   */
  lemma {:induction false} SlotAfterScalar(before: seq<Value>, v: Value, arrays: seq<Value>)
    requires !v.Arr? && AllArrays(arrays)
    ensures SlotAfter(before + [v] + arrays) == Some(ToText(v) + ValueElements(Items(arrays)))
    decreases |arrays|
  {
    if arrays == [] {
      SlotAfterSnoc(before, v);
      assert before + [v] + arrays == before + [v];
      assert ToText(v) + ValueElements([]) == ToText(v);
    } else {
      var front := arrays[..|arrays| - 1];
      SlotAfterScalar(before, v, front);
      AppendArray(before + [v], ToText(v), front, arrays[|arrays| - 1]);
      assert arrays == front + [arrays[|arrays| - 1]];
      assert before + [v] + arrays == before + [v] + front + [arrays[|arrays| - 1]];
    }
  }

  /** One more array after `prefix + front` appends its value elements to the entry. */
  lemma AppendArray(prefix: seq<Value>, p: string, front: seq<Value>, last: Value)
    requires last.Arr?
    requires SlotAfter(prefix + front) == Some(p + ValueElements(Items(front)))
    ensures SlotAfter(prefix + front + [last]) == Some(p + ValueElements(Items(front + [last])))
  {
    var a, b := ValueElements(Items(front)), ValueElements(last.items);
    SlotAfterArray(prefix + front, p + a, last);
    ItemsElements(front, last);
    ConcatAssoc(p, a, b);
  }

  /** An array after a set entry appends its value elements to it. */
  lemma SlotAfterArray(vs: seq<Value>, q: string, last: Value)
    requires last.Arr? && SlotAfter(vs) == Some(q)
    ensures SlotAfter(vs + [last]) == Some(q + ValueElements(last.items))
  {
    SlotAfterSnoc(vs, last);
    if last.items == [] {
      assert q + ValueElements([]) == q;
    }
  }

  lemma ItemsElements(front: seq<Value>, last: Value)
    requires last.Arr?
    ensures ValueElements(Items(front + [last])) == ValueElements(Items(front)) + ValueElements(last.items)
  {
    ItemsSnoc(front, last);
    ValueElementsAppend(Items(front), last.items);
  }

  lemma SlotAfterSnoc(vs: seq<Value>, v: Value)
    ensures SlotAfter(vs + [v]) == NextSlot(SlotAfter(vs), v)
  {
    assert (vs + [v])[..|vs|] == vs;
  }

  lemma ItemsSnoc(vs: seq<Value>, v: Value)
    requires v.Arr?
    ensures Items(vs + [v]) == Items(vs) + v.items
  {
    assert (vs + [v])[..|vs|] == vs;
  }

  /**
   * Two multi-valued properties in a row: the entry after the second one
   * still holds the first one's value element ahead of its own.
   */
  lemma SharedValueBuffer()
    ensures SlotAfter([Arr(["a"]), Arr(["b"])]) == Some(ValueElements(["a"]) + ValueElements(["b"]))
  {
    var first, second := Arr(["a"]), Arr(["b"]);
    SlotAfterSnoc([], first);
    assert [] + [first] == [first];
    EmptyConcat(ValueElements(["a"]));
    SlotAfterArray([first], ValueElements(["a"]), second);
    assert [first] + [second] == [first, second];
  }


  function Values(props: seq<(string, Value)>): (vs: seq<Value>)
    ensures |vs| == |props| && forall i :: 0 <= i < |props| ==> vs[i] == props[i].1
  {
    seq(|props|, i requires 0 <= i < |props| => props[i].1)
  }

  /** A value whose text processTemplate copies literally. */
  predicate PlainValue(v: Value) {
    match v
    case Null => true
    case Str(s) => NoBrace(s)
    case Arr(items) => forall i :: 0 <= i < |items| ==> NoBrace(items[i])
  }

  lemma {:induction false} ValueElementsNoBrace(items: seq<string>)
    requires forall i :: 0 <= i < |items| ==> NoBrace(items[i])
    ensures NoBrace(ValueElements(items))
  {
    if items != [] {
      ValueElementsNoBrace(items[1..]);
      ValueRuns();
      NoBraceAppend("</cmis:value>", ValueElements(items[1..]));
      NoBraceAppend(items[0], "</cmis:value>" + ValueElements(items[1..]));
      NoBraceAppend("<cmis:value>", items[0] + ("</cmis:value>" + ValueElements(items[1..])));
    }
  }

  lemma ValueRuns()
    ensures NoBrace("<cmis:value>") && NoBrace("</cmis:value>")
  {
  }

  lemma {:induction false} SlotNoBrace(vs: seq<Value>)
    requires forall i :: 0 <= i < |vs| ==> PlainValue(vs[i])
    ensures SlotAfter(vs).Some? ==> NoBrace(SlotAfter(vs).value)
    decreases |vs|
  {
    if vs != [] {
      var last := vs[|vs| - 1];
      SlotNoBrace(vs[..|vs| - 1]);
      if last.Arr? && last.items != [] {
        ValueElementsNoBrace(last.items);
        var before := SlotAfter(vs[..|vs| - 1]);
        NoBraceAppend(if before.Some? then before.value else "", ValueElements(last.items));
      }
    }
  }
}
