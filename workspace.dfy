/**
 * extractWorkspaceFromNode: the repository descriptor read from the service
 * document, seven maps each filled entry by entry in document order.
 */
module Workspace {
  import opened Wrappers
  import opened Php
  import opened Xml
  import opened Links

  datatype Workspace = Workspace(
    links: map<string, string>,
    uriTemplates: map<string, string>,
    collections: map<string, string>,
    capabilities: map<string, string>,
    repositoryInfo: map<string, string>,
    permissions: map<string, string>,
    permissionsMapping: map<string, seq<string>>)

  /** One `key => value` assignment per node, in the order of `ns`. */
  function Pairs<V>(ns: seq<Node>, entry: Node -> (string, V)): (ps: seq<(string, V)>)
    ensures |ps| == |ns|
    ensures forall i :: 0 <= i < |ns| ==> ps[i] == entry(ns[i])
  {
    seq(|ns|, i requires 0 <= i < |ns| => entry(ns[i]))
  }

  /**
   * A map filled by one assignment per node has exactly the keys of those
   * nodes, each holding the value of the last node with that key.
   */
  lemma {:induction false} LastEntryWins<V>(ns: seq<Node>, entry: Node -> (string, V), k: string)
    ensures k in Assign(map[], Pairs(ns, entry)) <==> exists i :: 0 <= i < |ns| && entry(ns[i]).0 == k
    ensures k in Assign(map[], Pairs(ns, entry)) ==>
              exists i :: 0 <= i < |ns| && entry(ns[i]).0 == k
                && Assign(map[], Pairs(ns, entry))[k] == entry(ns[i]).1
                && forall j :: i < j < |ns| ==> entry(ns[j]).0 != k
  {
    var ps := Pairs(ns, entry);
    AssignLastWins(map[], ps, k);
    if exists i :: 0 <= i < |ns| && entry(ns[i]).0 == k {
      var i :| 0 <= i < |ns| && entry(ns[i]).0 == k;
      assert ps[i].0 == k;
    }
    if k in Assign(map[], ps) {
      var i := LastIndex(ps, k);
      assert entry(ns[i]) == ps[i];
    }
  }

  // ---- the node sets queried ----

  /** `//cmisra:uritemplate` */
  function UriTemplateNodes(n: Node): seq<Node> {
    Query(n, None, Named(CMISRA_NS, "uritemplate"))
  }

  /** `//app:collection` */
  function CollectionNodes(n: Node): seq<Node> {
    Query(n, None, Named(APP_NS, "collection"))
  }

  /** `//cmis:capabilities/` + `*` */
  function CapabilityNodes(n: Node): seq<Node> {
    Query(n, Some(Named(CMIS_NS, "capabilities")), AnyElement)
  }

  /** `//cmisra:repositoryInfo/` + `*` minus the two capability blocks. */
  function InfoNodes(n: Node): seq<Node> {
    Query(n, Some(Named(CMISRA_NS, "repositoryInfo")), NameIsNot("cmis:capabilities", "cmis:aclCapability"))
  }

  /** `//cmis:aclCapability/cmis:permissions` */
  function PermissionNodes(n: Node): seq<Node> {
    Query(n, Some(Named(CMIS_NS, "aclCapability")), Named(CMIS_NS, "permissions"))
  }

  /** `//cmis:aclCapability/cmis:mapping` */
  function MappingNodes(n: Node): seq<Node> {
    Query(n, Some(Named(CMIS_NS, "aclCapability")), Named(CMIS_NS, "mapping"))
  }

  /** `//cmis:aclCapability/` + `*` minus permissions and mapping. */
  function AclNodes(n: Node): seq<Node> {
    Query(n, Some(Named(CMIS_NS, "aclCapability")), NameIsNot("cmis:permissions", "cmis:mapping"))
  }

  // ---- what each node contributes ----

  /** nodeName, total: the queries only ever return elements. */
  function QName(n: Node): string {
    if n.Element? then NodeName(n) else ""
  }

  function TemplateEntry(n: Node): (string, string) {
    (FirstTextOr(n, "type"), FirstTextOr(n, "template"))
  }

  function CollectionEntry(n: Node): (string, string) {
    (FirstTextOr(n, "collectionType"), Attr(n, "href"))
  }

  function NamedText(n: Node): (string, string) {
    (QName(n), TextContent(n))
  }

  function PermissionEntry(n: Node): (string, string) {
    (FirstTextOr(n, "permission"), FirstTextOr(n, "description"))
  }

  function Texts(ns: seq<Node>): (ts: seq<string>)
    ensures |ts| == |ns|
    ensures forall i :: 0 <= i < |ns| ==> ts[i] == TextContent(ns[i])
  {
    seq(|ns|, i requires 0 <= i < |ns| => TextContent(ns[i]))
  }

  /** A mapping: its first key, and the text of every permission below it in document order. */
  function MappingEntry(n: Node): (string, seq<string>) {
    (FirstTextOr(n, "key"), Texts(ElementsByTagName(n, "permission")))
  }

  function UriTemplates(n: Node): map<string, string> {
    Assign(map[], Pairs(UriTemplateNodes(n), TemplateEntry))
  }

  function Collections(n: Node): map<string, string> {
    Assign(map[], Pairs(CollectionNodes(n), CollectionEntry))
  }

  function Capabilities(n: Node): map<string, string> {
    Assign(map[], Pairs(CapabilityNodes(n), NamedText))
  }

  /** The plain repositoryInfo children first, then the plain aclCapability children into the same array. */
  function RepositoryInfo(n: Node): map<string, string> {
    Assign(Assign(map[], Pairs(InfoNodes(n), NamedText)), Pairs(AclNodes(n), NamedText))
  }

  function Permissions(n: Node): map<string, string> {
    Assign(map[], Pairs(PermissionNodes(n), PermissionEntry))
  }

  function PermissionsMapping(n: Node): map<string, seq<string>> {
    Assign(map[], Pairs(MappingNodes(n), MappingEntry))
  }

  /** extractWorkspaceFromNode: the seven maps, filled in this order. */
  function ExtractWorkspace(n: Node): (w: Workspace)
    ensures w.links == GetLinksArray(n)
  {
    Workspace(GetLinksArray(n), UriTemplates(n), Collections(n), Capabilities(n),
              RepositoryInfo(n), Permissions(n), PermissionsMapping(n))
  }

  // ---- properties ----

  /** URI templates are keyed by their type: the template of the last uritemplate of each type. */
  lemma UriTemplateOf(n: Node, t: string)
    ensures var us := UriTemplateNodes(n);
            t in UriTemplates(n) <==> exists i :: 0 <= i < |us| && FirstTextOr(us[i], "type") == t
    ensures var us := UriTemplateNodes(n);
            t in UriTemplates(n) ==>
              exists i :: 0 <= i < |us| && FirstTextOr(us[i], "type") == t
                && UriTemplates(n)[t] == FirstTextOr(us[i], "template")
                && forall j :: i < j < |us| ==> FirstTextOr(us[j], "type") != t
  {
    LastEntryWins(UriTemplateNodes(n), TemplateEntry, t);
  }

  /** Collections are keyed by collectionType and hold the href of the last app:collection of that type. */
  lemma CollectionOf(n: Node, t: string)
    ensures var cs := CollectionNodes(n);
            t in Collections(n) <==> exists i :: 0 <= i < |cs| && FirstTextOr(cs[i], "collectionType") == t
    ensures var cs := CollectionNodes(n);
            t in Collections(n) ==>
              exists i :: 0 <= i < |cs| && FirstTextOr(cs[i], "collectionType") == t
                && Collections(n)[t] == Attr(cs[i], "href")
                && forall j :: i < j < |cs| ==> FirstTextOr(cs[j], "collectionType") != t
  {
    LastEntryWins(CollectionNodes(n), CollectionEntry, t);
  }

  /** Capabilities are keyed by the qualified name of each child of cmis:capabilities. */
  lemma CapabilityOf(n: Node, name: string)
    ensures var cs := CapabilityNodes(n);
            name in Capabilities(n) <==> exists i :: 0 <= i < |cs| && NodeName(cs[i]) == name
    ensures var cs := CapabilityNodes(n);
            name in Capabilities(n) ==>
              exists i :: 0 <= i < |cs| && NodeName(cs[i]) == name
                && Capabilities(n)[name] == TextContent(cs[i])
                && forall j :: i < j < |cs| ==> NodeName(cs[j]) != name
  {
    LastEntryWins(CapabilityNodes(n), NamedText, name);
  }

  /**
   * repositoryInfo holds the plain children of repositoryInfo and the plain
   * children of aclCapability; on a clash of names the acl entry wins, because
   * it is written last.
   */
  lemma RepositoryInfoOf(n: Node, name: string)
    ensures var infos, acls := InfoNodes(n), AclNodes(n);
            name in RepositoryInfo(n) <==>
              (exists i :: 0 <= i < |infos| && QName(infos[i]) == name) || (exists i :: 0 <= i < |acls| && QName(acls[i]) == name)
    ensures var acls := AclNodes(n);
            (exists i :: 0 <= i < |acls| && QName(acls[i]) == name) ==>
              exists i :: 0 <= i < |acls| && QName(acls[i]) == name
                && RepositoryInfo(n)[name] == TextContent(acls[i])
                && forall j :: i < j < |acls| ==> QName(acls[j]) != name
    ensures var infos, acls := InfoNodes(n), AclNodes(n);
            (forall i :: 0 <= i < |acls| ==> QName(acls[i]) != name) && (exists i :: 0 <= i < |infos| && QName(infos[i]) == name) ==>
              exists i :: 0 <= i < |infos| && QName(infos[i]) == name
                && RepositoryInfo(n)[name] == TextContent(infos[i])
                && forall j :: i < j < |infos| ==> QName(infos[j]) != name
  {
    RepositoryInfoFrom(InfoNodes(n), AclNodes(n), name);
  }

  lemma RepositoryInfoFrom(infos: seq<Node>, acls: seq<Node>, name: string)
    ensures var m := Assign(Assign(map[], Pairs(infos, NamedText)), Pairs(acls, NamedText));
            name in m <==>
              (exists i :: 0 <= i < |infos| && QName(infos[i]) == name) || (exists i :: 0 <= i < |acls| && QName(acls[i]) == name)
    ensures var m := Assign(Assign(map[], Pairs(infos, NamedText)), Pairs(acls, NamedText));
            (exists i :: 0 <= i < |acls| && QName(acls[i]) == name) ==>
              exists i :: 0 <= i < |acls| && QName(acls[i]) == name
                && m[name] == TextContent(acls[i])
                && forall j :: i < j < |acls| ==> QName(acls[j]) != name
    ensures var m := Assign(Assign(map[], Pairs(infos, NamedText)), Pairs(acls, NamedText));
            (forall i :: 0 <= i < |acls| ==> QName(acls[i]) != name) && (exists i :: 0 <= i < |infos| && QName(infos[i]) == name) ==>
              exists i :: 0 <= i < |infos| && QName(infos[i]) == name
                && m[name] == TextContent(infos[i])
                && forall j :: i < j < |infos| ==> QName(infos[j]) != name
  {
    LaterEntriesWin(infos, acls, NamedText, name);
  }

  /** Two maps filled one after the other into the same array: the second one's entries win. */
  lemma {:induction false} LaterEntriesWin<V>(first: seq<Node>, second: seq<Node>, entry: Node -> (string, V), k: string)
    ensures var m := Assign(Assign(map[], Pairs(first, entry)), Pairs(second, entry));
            k in m <==> (exists i :: 0 <= i < |first| && entry(first[i]).0 == k) || (exists i :: 0 <= i < |second| && entry(second[i]).0 == k)
    ensures var m := Assign(Assign(map[], Pairs(first, entry)), Pairs(second, entry));
            (exists i :: 0 <= i < |second| && entry(second[i]).0 == k) ==>
              exists i :: 0 <= i < |second| && entry(second[i]).0 == k && m[k] == entry(second[i]).1
                && forall j :: i < j < |second| ==> entry(second[j]).0 != k
    ensures var m := Assign(Assign(map[], Pairs(first, entry)), Pairs(second, entry));
            (forall i :: 0 <= i < |second| ==> entry(second[i]).0 != k) && (exists i :: 0 <= i < |first| && entry(first[i]).0 == k) ==>
              exists i :: 0 <= i < |first| && entry(first[i]).0 == k && m[k] == entry(first[i]).1
                && forall j :: i < j < |first| ==> entry(first[j]).0 != k
  {
    var m1 := Assign(map[], Pairs(first, entry));
    var ps := Pairs(second, entry);
    LastEntryWins(first, entry, k);
    LastEntryWins(second, entry, k);
    AssignLastWins(m1, ps, k);
    AssignLastWins(map[], ps, k);
  }

  /** Permissions map each permission name to the description beside it (last one wins). */
  lemma PermissionOf(n: Node, p: string)
    ensures var ps := PermissionNodes(n);
            p in Permissions(n) <==> exists i :: 0 <= i < |ps| && FirstTextOr(ps[i], "permission") == p
    ensures var ps := PermissionNodes(n);
            p in Permissions(n) ==>
              exists i :: 0 <= i < |ps| && FirstTextOr(ps[i], "permission") == p
                && Permissions(n)[p] == FirstTextOr(ps[i], "description")
                && forall j :: i < j < |ps| ==> FirstTextOr(ps[j], "permission") != p
  {
    LastEntryWins(PermissionNodes(n), PermissionEntry, p);
  }

  /**
   * A permission mapping lists the texts of all permission elements of the
   * last mapping with that key, in document order and with repeats kept.
   */
  lemma MappingOf(n: Node, key: string)
    ensures var ms := MappingNodes(n);
            key in PermissionsMapping(n) <==> exists i :: 0 <= i < |ms| && FirstTextOr(ms[i], "key") == key
    ensures var ms := MappingNodes(n);
            key in PermissionsMapping(n) ==>
              exists i :: 0 <= i < |ms| && FirstTextOr(ms[i], "key") == key
                && (var vs := PermissionsMapping(n)[key];
                    var es := ElementsByTagName(ms[i], "permission");
                    |vs| == |es| && forall j :: 0 <= j < |es| ==> vs[j] == TextContent(es[j]))
                && forall j :: i < j < |ms| ==> FirstTextOr(ms[j], "key") != key
  {
    LastEntryWins(MappingNodes(n), MappingEntry, key);
  }
}
