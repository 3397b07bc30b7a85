/**
 * The service's per-session metadata: the five caches (links, titles,
 * object-type ids, type definitions, change tokens) as one value, how an
 * extracted object or type definition updates them, and which cached
 * entries a later lookup answers without asking the server.
 */
module Session {
  import opened Wrappers
  import opened Php
  import opened Objects
  import opened Types

  /** `_link_cache`, `_title_cache`, `_objTypeId_cache`, `_type_cache`, `_changeToken_cache`. */
  datatype Caches = Caches(
    links: map<string, map<string, string>>,
    titles: map<string, Value>,
    typeIds: map<string, Value>,
    types: map<string, TypeDef>,
    changeTokens: map<string, Value>)

  const NO_CACHES := Caches(map[], map[], map[], map[], map[])

  const NAME := "cmis:name"
  const OBJECT_TYPE_ID := "cmis:objectTypeId"
  const OBJECT_ID := "cmis:objectId"
  const CHANGE_TOKEN := "cmis:changeToken"

  // ---- cacheObjectInfo, cacheFeedInfo ----

  /**
   * cacheObjectInfo: links, name and object-type id under the object's id;
   * the change token only when the object carries one.
   */
  function CacheObject(c: Caches, obj: ObjectRecord): Caches {
    var id := obj.id;
    Caches(
      c.links[id := obj.links],
      c.titles[id := Lookup(obj.properties, NAME)],
      c.typeIds[id := Lookup(obj.properties, OBJECT_TYPE_ID)],
      c.types,
      if IsSet(obj.properties, CHANGE_TOKEN) then c.changeTokens[id := obj.properties[CHANGE_TOKEN]]
      else c.changeTokens)
  }

  /** The caches hold what cacheObjectInfo stored for this object. */
  predicate Holds(c: Caches, obj: ObjectRecord) {
    obj.id in c.links && c.links[obj.id] == obj.links
    && obj.id in c.titles && c.titles[obj.id] == Lookup(obj.properties, NAME)
    && obj.id in c.typeIds && c.typeIds[obj.id] == Lookup(obj.properties, OBJECT_TYPE_ID)
  }

  /**
   * Caching an object stores its entries, keeps a change token it does not
   * carry, and leaves every other id and the type definitions as they were.
   */
  lemma CacheObjectEntries(c: Caches, obj: ObjectRecord, k: string)
    ensures Holds(CacheObject(c, obj), obj)
    ensures CacheObject(c, obj).types == c.types
    ensures IsSet(obj.properties, CHANGE_TOKEN) ==>
                  CacheObject(c, obj).changeTokens[obj.id] == obj.properties[CHANGE_TOKEN]
    ensures !IsSet(obj.properties, CHANGE_TOKEN) ==> CacheObject(c, obj).changeTokens == c.changeTokens
    ensures k != obj.id ==> Unchanged(c, CacheObject(c, obj), k)
  {
  }

  /** Id `k` reads the same in both caches, in each of the four per-object maps. */
  predicate Unchanged(c: Caches, c': Caches, k: string) {
    (k in c'.links <==> k in c.links) && (k in c.links ==> c'.links[k] == c.links[k])
    && (k in c'.titles <==> k in c.titles) && (k in c.titles ==> c'.titles[k] == c.titles[k])
    && (k in c'.typeIds <==> k in c.typeIds) && (k in c.typeIds ==> c'.typeIds[k] == c.typeIds[k])
    && (k in c'.changeTokens <==> k in c.changeTokens) && (k in c.changeTokens ==> c'.changeTokens[k] == c.changeTokens[k])
  }

  /** cacheFeedInfo: the feed's list slots cached one after the other. */
  function CacheObjects(c: Caches, objs: seq<ObjectRecord>): Caches
    decreases |objs|
  {
    if objs == [] then c else CacheObject(CacheObjects(c, objs[..|objs| - 1]), objs[|objs| - 1])
  }

  /** The position of the last object with id `k`, or -1. */
  function LastWithId(objs: seq<ObjectRecord>, k: string): (j: int)
    ensures -1 <= j < |objs|
    ensures j >= 0 ==> objs[j].id == k && forall l :: j < l < |objs| ==> objs[l].id != k
    ensures j == -1 ==> forall l :: 0 <= l < |objs| ==> objs[l].id != k
    decreases |objs|
  {
    if objs == [] then -1
    else if objs[|objs| - 1].id == k then |objs| - 1
    else LastWithId(objs[..|objs| - 1], k)
  }

  /** The position of the last object with id `k` that carries a change token, or -1. */
  function LastTokenWithId(objs: seq<ObjectRecord>, k: string): (j: int)
    ensures -1 <= j < |objs|
    ensures j >= 0 ==> objs[j].id == k && IsSet(objs[j].properties, CHANGE_TOKEN)
    ensures j >= 0 ==> forall l :: j < l < |objs| && objs[l].id == k ==> !IsSet(objs[l].properties, CHANGE_TOKEN)
    ensures j == -1 ==> forall l :: 0 <= l < |objs| && objs[l].id == k ==> !IsSet(objs[l].properties, CHANGE_TOKEN)
    decreases |objs|
  {
    if objs == [] then -1
    else if objs[|objs| - 1].id == k && IsSet(objs[|objs| - 1].properties, CHANGE_TOKEN) then |objs| - 1
    else LastTokenWithId(objs[..|objs| - 1], k)
  }

  /**
   * After a feed is cached, an id of the feed holds the entries of the last
   * object with that id, its change token is the last one such an object
   * carried (or the one cached before), and ids outside the feed are
   * untouched.
   */
  lemma {:induction false} FeedLastWins(c: Caches, objs: seq<ObjectRecord>, k: string)
    ensures CacheObjects(c, objs).types == c.types
    ensures LastWithId(objs, k) >= 0 ==> Holds(CacheObjects(c, objs), objs[LastWithId(objs, k)])
    ensures LastWithId(objs, k) < 0 ==> Unchanged(c, CacheObjects(c, objs), k)
    ensures LastTokenWithId(objs, k) >= 0 ==>
                  k in CacheObjects(c, objs).changeTokens
                  && CacheObjects(c, objs).changeTokens[k] == objs[LastTokenWithId(objs, k)].properties[CHANGE_TOKEN]
    ensures LastTokenWithId(objs, k) < 0 ==>
                  (k in CacheObjects(c, objs).changeTokens <==> k in c.changeTokens)
                  && (k in c.changeTokens ==> CacheObjects(c, objs).changeTokens[k] == c.changeTokens[k])
    decreases |objs|
  {
    if objs != [] {
      var n := |objs| - 1;
      FeedLastWins(c, objs[..n], k);
      CacheObjectEntries(CacheObjects(c, objs[..n]), objs[n], k);
    }
  }

  // ---- cacheTypeInfo, cacheTypeFeedInfo ----

  /** cacheTypeInfo: the definition under its id; nothing else changes. */
  function CacheType(c: Caches, def: TypeDef): (c': Caches)
    ensures c'.types.Keys == c.types.Keys + {def.id}
    ensures c' == c.(types := c'.types)
  {
    c.(types := c.types[def.id := def])
  }

  /** cacheTypeFeedInfo: the feed's definitions cached one after the other. */
  function CacheTypes(c: Caches, defs: seq<TypeDef>): Caches
    decreases |defs|
  {
    if defs == [] then c else CacheType(CacheTypes(c, defs[..|defs| - 1]), defs[|defs| - 1])
  }

  /**
   * After a type feed is cached, each id holds the last definition with it
   * and every other cache is as before.
   */
  lemma TypeFeedLastWins(c: Caches, defs: seq<TypeDef>, k: string)
    ensures CacheTypes(c, defs) == c.(types := CacheTypes(c, defs).types)
    ensures k in CacheTypes(c, defs).types <==> k in c.types || exists i :: 0 <= i < |defs| && defs[i].id == k
    ensures forall j :: 0 <= j < |defs| && defs[j].id == k && (forall l :: j < l < |defs| ==> defs[l].id != k) ==>
                  CacheTypes(c, defs).types[k] == defs[j]
    ensures (forall i :: 0 <= i < |defs| ==> defs[i].id != k) && k in c.types ==>
                  CacheTypes(c, defs).types[k] == c.types[k]
  {
    var ps := KeyPairs(defs, TypeId);
    TypesAssigned(c, defs);
    AssignLastWins(c.types, ps, k);
    if exists i :: 0 <= i < |defs| && defs[i].id == k {
      var i :| 0 <= i < |defs| && defs[i].id == k;
      assert ps[i].0 == k;
    }
    forall j | 0 <= j < |defs| && defs[j].id == k && (forall l :: j < l < |defs| ==> defs[l].id != k)
      ensures CacheTypes(c, defs).types[k] == defs[j]
    {
      assert ps[j].0 == k;
      assert LastIndex(ps, k) == j;
    }
  }

  /** Caching a type feed is the keyed assignment of its definitions to the type cache. */
  lemma {:induction false} TypesAssigned(c: Caches, defs: seq<TypeDef>)
    ensures CacheTypes(c, defs) == c.(types := Assign(c.types, KeyPairs(defs, TypeId)))
    decreases |defs|
  {
    if defs != [] {
      var n := |defs| - 1;
      TypesAssigned(c, defs[..n]);
      assert KeyPairs(defs, TypeId)[..n] == KeyPairs(defs[..n], TypeId);
    }
  }

  // ---- what a lookup finds without a request ----

  /** getLink answers from the cache whenever the id is a key of the link cache, however empty its links. */
  predicate LinksCached(c: Caches, objectId: string) {
    objectId in c.links
  }

  /** getTitle answers from the cache only when the cached name is truthy. */
  predicate TitleCached(c: Caches, objectId: string) {
    Truthy(Lookup(c.titles, objectId))
  }

  /** getObjectType answers from the cache only when the cached type id is truthy. */
  predicate TypeIdCached(c: Caches, objectId: string) {
    Truthy(Lookup(c.typeIds, objectId))
  }

  /** getTypeLink answers from the cache when the cached definition has a link at all. */
  predicate TypeLinksCached(c: Caches, typeId: string) {
    typeId in c.types && c.types[typeId].links != map[]
  }

  /** getPropertyType answers from the cache when the cached definition has a property definition at all. */
  predicate PropertiesCached(c: Caches, typeId: string) {
    typeId in c.types && c.types[typeId].properties != map[]
  }

  /** `properties[$propertyId]["cmis:propertyType"]` of a definition; "" for an unknown property. */
  function PropertyTypeIn(def: TypeDef, propertyId: string): (t: string)
    ensures propertyId !in def.properties ==> t == ""
  {
    if propertyId in def.properties then def.properties[propertyId].propertyType else ""
  }

  /** The property types a definition gives each property of a map, in order. */
  function TypesIn(def: TypeDef, props: seq<(string, Value)>): (ts: seq<string>)
    ensures |ts| == |props|
    ensures forall i :: 0 <= i < |props| ==> ts[i] == PropertyTypeIn(def, props[i].0)
  {
    seq(|props|, i requires 0 <= i < |props| => PropertyTypeIn(def, props[i].0))
  }

  /**
   * Once an object is cached, its links are answered from the cache; its
   * name and type id only when they are truthy, so an object with an empty
   * or "0" name is fetched again by every getTitle.
   */
  lemma LookupsAfterCaching(c: Caches, obj: ObjectRecord)
    ensures LinksCached(CacheObject(c, obj), obj.id)
    ensures TitleCached(CacheObject(c, obj), obj.id) <==> Truthy(Lookup(obj.properties, NAME))
    ensures TypeIdCached(CacheObject(c, obj), obj.id) <==> Truthy(Lookup(obj.properties, OBJECT_TYPE_ID))
  {
  }

  /** A cached object without links still answers getLink, with "" for every relation. */
  lemma EmptyLinksStillCached(c: Caches, obj: ObjectRecord, linkName: string)
    requires obj.links == map[]
    ensures LinksCached(CacheObject(c, obj), obj.id)
    ensures TextAt(CacheObject(c, obj).links[obj.id], linkName) == ""
  {
  }

  // ---- getMultiValuedProp ----

  /**
   * getMultiValuedProp: a property that is not set gives the empty list;
   * otherwise getAsArray of its value.
   */
  function MultiValuedProp(obj: ObjectRecord, propName: string): (r: seq<string>)
    ensures !IsSet(obj.properties, propName) ==> r == []
    ensures IsSet(obj.properties, propName) && obj.properties[propName].Arr? ==> r == obj.properties[propName].items
    ensures IsSet(obj.properties, propName) && obj.properties[propName].Str? && obj.properties[propName].s != "" ==>
                  r == [obj.properties[propName].s]
    ensures r == [] <==> LooselyNull(Lookup(obj.properties, propName))
  {
    if IsSet(obj.properties, propName) then GetAsArray(obj.properties[propName]) else []
  }

  // ---- isset on a property array ----

  /** `isset($properties[$k])` on a property array: present and not null. */
  predicate IsSetAt(m: PhpArray<Value>, k: string) {
    Has(m, k) && Get(m, k, Null) != Null
  }

  /**
   * postObject's properties: `cmis:objectTypeId` is added, at the end, only
   * when it is not set; a set one is never overwritten.
   */
  function WithTypeId(properties: PhpArray<Value>, objectType: string): (r: PhpArray<Value>)
    ensures IsSetAt(properties, OBJECT_TYPE_ID) ==> r == properties
    ensures !IsSetAt(properties, OBJECT_TYPE_ID) ==> Get(r, OBJECT_TYPE_ID, Null) == Str(objectType)
    ensures Keys(properties) <= Keys(r) && |r| <= |properties| + 1
  {
    if IsSetAt(properties, OBJECT_TYPE_ID) then properties
    else
      var r := Put(properties, OBJECT_TYPE_ID, Str(objectType));
      var i := Find(r, OBJECT_TYPE_ID);
      assert r[i] == (OBJECT_TYPE_ID, Str(objectType));
      r
  }

  /** Every other property keeps its value. */
  lemma WithTypeIdOther(properties: PhpArray<Value>, objectType: string, k: string)
    requires k != OBJECT_TYPE_ID
    ensures Get(WithTypeId(properties, objectType), k, Null) == Get(properties, k, Null)
  {
    if !IsSetAt(properties, OBJECT_TYPE_ID) {
      PutGetOther(properties, OBJECT_TYPE_ID, Str(objectType), k, Null);
    }
  }
}
