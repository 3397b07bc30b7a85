/**
 * CMISService over the AtomPub binding: the session object with its five
 * metadata caches, the lookups that answer from them or fetch, and the
 * operations that send the request bodies of the Requests module.
 *
 * The network is the session's script of responses, answered in order, and
 * its log of the requests sent; a request past the end of the script gets
 * what a failed curl call gives (no code, no body).
 */
module Service {
  import opened Wrappers
  import opened Php
  import opened Status
  import opened Xml
  import opened Objects
  import opened Types
  import opened Workspace
  import opened Urls
  import opened Templates
  import opened PropertyValues
  import opened Requests
  import opened Session

  const LINK_DOWN := "down"
  const LINK_EDIT := "edit"
  const LINK_EDIT_MEDIA := "edit-media"
  const LINK_VIA := "via"
  const LINK_CHANGES := "http://docs.oasis-open.org/ns/cmis/link/200908/changes"
  const COLLECTION_QUERY := "query"
  const COLLECTION_TYPES := "types"
  const URI_TEMPLATE_OBJECT_BY_ID := "objectbyid"
  const URI_TEMPLATE_TYPE_BY_ID := "typebyid"
  const MIME_ATOM_XML_ENTRY := "application/atom+xml;type=entry"
  const MIME_CMIS_QUERY := "application/cmisquery+xml"
  const OCTET_STREAM := "application/octet-stream"
  const CMIS_DOCUMENT := "cmis:document"
  const CMIS_FOLDER := "cmis:folder"

  /** A server answer: its status, its body, and the body as loadXML leaves it (an empty document when it does not parse). */
  datatype Response = Response(code: int, body: string, document: Node)

  /**
   * The arguments doRequest is called with, the url already carrying the
   * connection options; a GET or DELETE has no content and no content type.
   * doRequest itself attaches the body and the Content-Type header only
   * when they are truthy, so a content of "0" is logged but not sent.
   */
  datatype Request = Request(verb: HttpMethod, url: string, content: string, contentType: string)

  /** A failed curl call: doRequest returns null, whose code and body read as 0 and "". */
  const NO_RESPONSE := Response(0, "", Document([]))

  function NextResponse(script: seq<Response>): Response {
    if script == [] then NO_RESPONSE else script[0]
  }

  function LaterResponses(script: seq<Response>): seq<Response> {
    if script == [] then [] else script[1..]
  }

  /** doGet / doPost / doPut / doDelete: the response when its status is accepted, the converted exception otherwise. */
  function Checked(m: HttpMethod, resp: Response): (r: Result<Response, CmisError>)
    ensures r.Success? <==> Accepts(m, resp.code)
    ensures r.Success? ==> r.value == resp
    ensures r.Failure? ==> r.error == ConvertStatusCode(resp.code, resp.body)
  {
    match CheckStatus(m, resp.code, resp.body)
    case None => Success(resp)
    case Some(e) => Failure(e)
  }

  /** A request the server never answered fails as a runtime exception with code 0, whatever the method. */
  lemma NoResponseFails(m: HttpMethod)
    ensures Checked(m, NO_RESPONSE).Failure?
    ensures Checked(m, NO_RESPONSE).error.kind == Runtime && Checked(m, NO_RESPONSE).error.code == 0
  {
  }

  // ---- what a fetch yields ----

  /** The object a request yields: the status check for its method, then extractObject. */
  function FetchedObject(m: HttpMethod, resp: Response): (r: Result<ObjectRecord, CmisError>)
    ensures r.Success? ==> Accepts(m, resp.code) && ExtractObject(resp.document) == r
    ensures !Accepts(m, resp.code) ==> r == Failure(ConvertStatusCode(resp.code, resp.body))
  {
    if Accepts(m, resp.code) then ExtractObject(resp.document)
    else Failure(ConvertStatusCode(resp.code, resp.body))
  }

  /** getTypeDefinition's outcome for a response: the status check, then extractTypeDef. */
  function FetchedType(resp: Response): (r: Result<TypeDef, CmisError>)
    ensures r.Success? <==> Accepts(GET, resp.code)
    ensures r.Success? ==> r.value == ExtractTypeDef(resp.document)
  {
    if Accepts(GET, resp.code) then Success(ExtractTypeDef(resp.document))
    else Failure(ConvertStatusCode(resp.code, resp.body))
  }

  /** A feed request's outcome: the status check for its method, then extractObjectFeed. */
  function FetchedFeed(m: HttpMethod, resp: Response): (r: Result<ObjectFeed, CmisError>)
    ensures r.Success? ==> Accepts(m, resp.code) && ExtractObjectFeed(resp.document) == r
    ensures !Accepts(m, resp.code) ==> r == Failure(ConvertStatusCode(resp.code, resp.body))
  {
    if Accepts(m, resp.code) then ExtractObjectFeed(resp.document)
    else Failure(ConvertStatusCode(resp.code, resp.body))
  }

  /** The relation `linkName` of a fetched object; "" when it has none. */
  function FetchedLink(f: Result<ObjectRecord, CmisError>, linkName: string): (r: Result<string, CmisError>)
    ensures r.Success? <==> f.Success?
    ensures f.Success? ==> r.value == TextAt(f.value.links, linkName)
  {
    if f.Failure? then Failure(f.error) else Success(TextAt(f.value.links, linkName))
  }

  /** A property of a fetched object; null when it has none. */
  function FetchedProperty(f: Result<ObjectRecord, CmisError>, name: string): (r: Result<Value, CmisError>)
    ensures r.Success? <==> f.Success?
    ensures f.Success? ==> r.value == Lookup(f.value.properties, name)
  {
    if f.Failure? then Failure(f.error) else Success(Lookup(f.value.properties, name))
  }

  /** The relation `linkName` of a fetched type definition. */
  function FetchedTypeLink(f: Result<TypeDef, CmisError>, linkName: string): (r: Result<string, CmisError>)
    ensures r.Success? <==> f.Success?
    ensures f.Success? ==> r.value == TextAt(f.value.links, linkName)
  {
    if f.Failure? then Failure(f.error) else Success(TextAt(f.value.links, linkName))
  }

  /** The property type a fetched type definition gives a property. */
  function FetchedPropertyType(f: Result<TypeDef, CmisError>, propertyId: string): (r: Result<string, CmisError>)
    ensures r.Success? <==> f.Success?
    ensures f.Success? ==> r.value == PropertyTypeIn(f.value, propertyId)
  {
    if f.Failure? then Failure(f.error) else Success(PropertyTypeIn(f.value, propertyId))
  }

  // ---- urls ----

  /** getObject's url: the objectbyid URI template filled with the options and the id. */
  function ObjectUrl(ws: Workspace, objectId: string, options: PhpArray<string>): string {
    Fill(TextAt(ws.uriTemplates, URI_TEMPLATE_OBJECT_BY_ID), Put(options, "id", objectId))
  }

  /** getTypeDefinition's url: the typebyid URI template filled with the options and the id. */
  function TypeUrl(ws: Workspace, typeId: string, options: PhpArray<string>): string {
    Fill(TextAt(ws.uriTemplates, URI_TEMPLATE_TYPE_BY_ID), Put(options, "id", typeId))
  }

  /**
   * A URI template with one `{id}` placeholder and otherwise brace-free
   * text gives the url with the id in its place.
   */
  lemma ObjectUrlOf(ws: Workspace, before: string, after: string, objectId: string)
    requires TextAt(ws.uriTemplates, URI_TEMPLATE_OBJECT_BY_ID) == before + "{id}" + after
    requires NoBrace(before) && NoBrace(after) && NoBrace(objectId)
    ensures ObjectUrl(ws, objectId, []) == before + objectId + after
  {
    assert Put([], "id", objectId) == [("id", objectId)];
    assert Placeholder("id") == "{id}";
    FillOne(before, "id", after, objectId);
  }

  /** checkURL: an empty url (or "0") is NotSupported, named after the function, or UnspecifiedMethod without one. */
  function CheckUrl(url: string, functionName: string): (r: Option<CmisError>)
    ensures r.None? <==> Truthy(Str(url))
    ensures r.Some? ==> r.value.kind == NotSupported && r.value.code == 0
    ensures r.Some? && functionName != "" && functionName != "0" ==> r.value.message == functionName
    ensures r.Some? && (functionName == "" || functionName == "0") ==> r.value.message == "UnspecifiedMethod"
  {
    if Truthy(Str(url)) then None
    else Some(CmisError(NotSupported, if Truthy(Str(functionName)) then functionName else "UnspecifiedMethod", 0))
  }

  // ---- the operations that only raise ----

  /** The services the binding does not implement. */
  datatype Stub =
    | GetRepositories | CreateType | UpdateType | DeleteType
    | CreateRelationship | CreatePolicy | CreateItem | BulkUpdateProperties
    | AppendContentStream | GetAllVersions | DeleteAllVersions | GetObjectRelationships
    | GetAppliedPolicies | ApplyPolicy | RemovePolicy | GetAcl | ApplyAcl

  /** The name each stub puts in its exception: its own method name. */
  function StubName(s: Stub): string {
    match s
    case GetRepositories => "getRepositories"
    case CreateType => "createType"
    case UpdateType => "updateType"
    case DeleteType => "deleteType"
    case CreateRelationship => "createRelationship"
    case CreatePolicy => "createPolicy"
    case CreateItem => "createItem"
    case BulkUpdateProperties => "bulkUpdateProperties"
    case AppendContentStream => "appendContentStream"
    case GetAllVersions => "getAllVersions"
    case DeleteAllVersions => "deleteAllVersions"
    case GetObjectRelationships => "getObjectRelationships"
    case GetAppliedPolicies => "getAppliedPolicies"
    case ApplyPolicy => "applyPolicy"
    case RemovePolicy => "removePolicy"
    case GetAcl => "getACL"
    case ApplyAcl => "applyACL"
  }

  /** The stub a method name belongs to. */
  function StubNamed(name: string): Option<Stub> {
    match name
    case "getRepositories" => Some(GetRepositories)
    case "createType" => Some(CreateType)
    case "updateType" => Some(UpdateType)
    case "deleteType" => Some(DeleteType)
    case "createRelationship" => Some(CreateRelationship)
    case "createPolicy" => Some(CreatePolicy)
    case "createItem" => Some(CreateItem)
    case "bulkUpdateProperties" => Some(BulkUpdateProperties)
    case "appendContentStream" => Some(AppendContentStream)
    case "getAllVersions" => Some(GetAllVersions)
    case "deleteAllVersions" => Some(DeleteAllVersions)
    case "getObjectRelationships" => Some(GetObjectRelationships)
    case "getAppliedPolicies" => Some(GetAppliedPolicies)
    case "applyPolicy" => Some(ApplyPolicy)
    case "removePolicy" => Some(RemovePolicy)
    case "getACL" => Some(GetAcl)
    case "applyACL" => Some(ApplyAcl)
    case _ => None
  }

  /** What a stub raises: NotImplemented with its own name, no code. */
  function StubError(s: Stub): (e: CmisError)
    ensures e.kind == NotImplemented && e.code == 0
    ensures StubNamed(e.message) == Some(s)
  {
    StubNamesRoundTrip(s);
    CmisError(NotImplemented, StubName(s), 0)
  }

  /** Every stub names itself, so no two stubs raise the same exception. */
  lemma StubNamesRoundTrip(s: Stub)
    ensures StubNamed(StubName(s)) == Some(s)
  {
    match s
    case GetRepositories =>
    case CreateType =>
    case UpdateType =>
    case DeleteType =>
    case CreateRelationship =>
    case CreatePolicy =>
    case CreateItem =>
    case BulkUpdateProperties =>
    case AppendContentStream =>
    case GetAllVersions =>
    case DeleteAllVersions =>
    case GetObjectRelationships =>
    case GetAppliedPolicies =>
    case ApplyPolicy =>
    case RemovePolicy =>
    case GetAcl =>
    case ApplyAcl =>
  }

  lemma StubErrorsDistinct(s: Stub, s': Stub)
    requires s != s'
    ensures StubError(s) != StubError(s')
  {
  }

  const FROM_SOURCE_MESSAGE := "createDocumentFromSource is not supported by the AtomPub binding!"

  /** createDocumentFromSource always raises NotSupported. */
  function CreateDocumentFromSource(): (e: CmisError)
    ensures e.kind == NotSupported && e.code == 0 && e.message == FROM_SOURCE_MESSAGE
  {
    CmisError(NotSupported, FROM_SOURCE_MESSAGE, 0)
  }

  const NOT_A_WORKING_COPY := "Not a WORKING COPY!"

  /**
   * The inner loop of processPropertyTemplates: each item of an array value
   * is appended, as a value element, to the `properties` entry.
   */
  method AppendValues(slot: Option<string>, items: seq<string>) returns (s: Option<string>)
    ensures s == NextSlot(slot, Arr(items))
  {
    s := slot;
    var j := 0;
    while j < |items|
      invariant 0 <= j <= |items|
      invariant j == 0 ==> s == slot
      invariant j > 0 ==> s == Some((if slot.Some? then slot.value else "") + ValueElements(items[..j]))
    {
      ValueElementsSnoc(items[..j], items[j]);
      assert items[..j + 1] == items[..j] + [items[j]];
      if j == 0 {
        assert items[..j] == [];
        EmptyConcat(ValueElement(items[j]));
      } else {
        ConcatAssoc(if slot.Some? then slot.value else "", ValueElements(items[..j]), ValueElement(items[j]));
      }
      s := Some((if s.Some? then s.value else "") + ValueElement(items[j]));
      j := j + 1;
    }
    assert items[..j] == items;
  }

  /** The body of processPropertyTemplates' loop for one property, once its type tag is known. */
  method RenderProperty(tag: string, propId: string, propValue: Value, slot: Option<string>)
    returns (block: string, slot': Option<string>)
    ensures slot' == NextSlot(slot, propValue)
    ensures block == Block(tag, propId, slot')
  {
    if propValue.Arr? {
      slot' := AppendValues(slot, propValue.items);
    } else {
      slot' := Some(ToText(propValue));
    }
    block := ProcessTemplate(PROPERTY_TEMPLATE, BlockValues(tag, propId, slot'));
  }

  lemma TypesInStep(def: TypeDef, props: seq<(string, Value)>, i: nat)
    requires i < |props|
    ensures TypesIn(def, props[..i + 1]) == TypesIn(def, props[..i]) + [PropertyTypeIn(def, props[i].0)]
  {
  }

  // ---- the write bodies ----

  /** The property blocks processPropertyTemplates can give: one per property, for some property types. */
  ghost predicate PropertyBlocks(props: PhpArray<Value>, xml: string) {
    exists types :: |types| == |props| && xml == PropertiesXml(types, props)
  }

  /** The entry postObject sends around the property blocks `xml`. */
  function PostObjectEntry(xml: string, content: string, contentType: string, options: PhpArray<string>,
                           escapedName: string, encode: string -> string): string
  {
    Fill(ENTRY_TEMPLATE, PostObjectValues(options, xml, ContentEntry(content, contentType, encode), escapedName))
  }

  /** The entry postEntry sends around the property blocks `xml`. */
  function PostEntryEntry(xml: string, content: string, contentType: string, options: PhpArray<string>,
                          encode: string -> string): string
  {
    Fill(ENTRY_TEMPLATE, EntryValues(options, xml, ContentEntry(content, contentType, encode)))
  }

  /** The entry updateProperties sends around the property blocks `xml`, titled with the object's name. */
  function UpdateEntry(xml: string, options: PhpArray<string>, title: string): string {
    Fill(ENTRY_TEMPLATE, UpdateValues(options, xml, title))
  }

  /**
   * The object type postEntry uses when it needs no request for it: a set
   * `cmis:objectTypeId`; else, for a set `cmis:objectId`, its cached type
   * id (None when getObjectType must fetch it); else none, read as "".
   */
  function EntryType(c: Caches, properties: PhpArray<Value>): Option<string> {
    if IsSetAt(properties, OBJECT_TYPE_ID) then Some(ToText(Get(properties, OBJECT_TYPE_ID, Null)))
    else if IsSetAt(properties, OBJECT_ID) then
      var id := ToText(Get(properties, OBJECT_ID, Null));
      if TypeIdCached(c, id) then Some(ToText(Lookup(c.typeIds, id))) else None
    else Some("")
  }

  /** updateProperties needs no request before its PUT: title, type id, links and the type's property definitions are cached. */
  predicate UpdateCached(c: Caches, objectId: string) {
    TitleCached(c, objectId) && TypeIdCached(c, objectId) && LinksCached(c, objectId)
    && PropertiesCached(c, ToText(Lookup(c.typeIds, objectId)))
  }

  /** An operation that returns nothing: the exception it raised, if any. */
  function Outcome(r: Result<Response, CmisError>): (e: Option<CmisError>)
    ensures e.None? <==> r.Success?
  {
    if r.Failure? then Some(r.error) else None
  }

  /** The exception cancelCheckOut raises for an object without a `via` link. */
  const NOT_A_WORKING_COPY_ERROR := CmisError(InvalidArgument, NOT_A_WORKING_COPY, 0)

  /**
   * No status a server answers with raises the exception cancelCheckOut
   * raises for an object that is not a working copy: a status that maps to
   * InvalidArgument is 400, never 0.
   */
  lemma StatusNeverNotAWorkingCopy(m: HttpMethod, resp: Response)
    ensures Outcome(Checked(m, resp)) != Some(NOT_A_WORKING_COPY_ERROR)
  {
  }

  // ---- the session ----

  class CmisService {
    /** The repository descriptor read when the session connected. */
    const workspace: Workspace
    /** The connection options doRequest appends to every url (none when they are not an array). */
    const authOptions: Option<seq<(string, string)>>
    /** htmlentities and base64_encode, which the model leaves uninterpreted. */
    const htmlEntities: string -> string
    const base64: string -> string

    var linkCache: map<string, map<string, string>>
    var titleCache: map<string, Value>
    var typeIdCache: map<string, Value>
    var typeCache: map<string, TypeDef>
    var changeTokenCache: map<string, Value>

    /** The server's answers still to come, and the requests sent so far. */
    var script: seq<Response>
    var sent: seq<Request>

    /** The five caches as one value. */
    function Cached(): Caches
      reads this
    {
      Caches(linkCache, titleCache, typeIdCache, typeCache, changeTokenCache)
    }

    /** No request, no cache change. */
    twostate predicate Quiet()
      reads this
    {
      script == old(script) && sent == old(sent) && Cached() == old(Cached())
    }

    /** Exactly one request, `req`, answered by the next response of the script. */
    twostate predicate SentOne(req: Request)
      reads this
    {
      sent == old(sent) + [req] && script == LaterResponses(old(script))
    }

    /** The request getObject sends for an id (no options). */
    function ObjectRequest(objectId: string): Request
      reads this
    {
      Request(GET, GetOpUrl(ObjectUrl(workspace, objectId, []), authOptions), "", "")
    }

    /** The request getTypeDefinition sends for a type id (no options). */
    function TypeRequest(typeId: string): Request
      reads this
    {
      Request(GET, GetOpUrl(TypeUrl(workspace, typeId, []), authOptions), "", "")
    }

    /** One getObject of `objectId`: one request, and the object cached when it was extracted. */
    twostate predicate FetchesObject(objectId: string)
      reads this
    {
      var f := FetchedObject(GET, NextResponse(old(script)));
      SentOne(ObjectRequest(objectId))
      && Cached() == (if f.Success? then CacheObject(old(Cached()), f.value) else old(Cached()))
    }

    /** One getTypeDefinition of `typeId`: one request, and the definition cached when the status was accepted. */
    twostate predicate FetchesType(typeId: string)
      reads this
    {
      var f := FetchedType(NextResponse(old(script)));
      SentOne(TypeRequest(typeId))
      && Cached() == (if f.Success? then CacheType(old(Cached()), f.value) else old(Cached()))
    }

    /** The last request sent. */
    function LastSent(): Request
      reads this
      requires sent != []
    {
      sent[|sent| - 1]
    }

    /** An extracted object answered a request, and the caches hold it. */
    predicate Delivered(r: Result<ObjectRecord, CmisError>)
      reads this
    {
      r.Success? ==> Holds(Cached(), r.value)
    }

    /**
     * From the state (c0, script0, sent0): exactly the request `req` was
     * sent, its answer yielded `r`, and an extracted object was cached.
     */
    predicate AnsweredFrom(c0: Caches, script0: seq<Response>, sent0: seq<Request>, m: HttpMethod, req: Request,
                           r: Result<ObjectRecord, CmisError>)
      reads this
    {
      sent == sent0 + [req] && script == LaterResponses(script0)
      && r == FetchedObject(m, NextResponse(script0))
      && Cached() == (if r.Success? then CacheObject(c0, r.value) else c0)
    }

    /**
     * postObject from the state (c0, script0, sent0), once the url is known:
     * an object it returns is cached and came from a POST of the entry
     * around some property blocks of the properties; when the type's
     * property definitions are cached, exactly that POST is sent, with the
     * blocks the cached definition gives.
     */
    ghost predicate PostedFrom(c0: Caches, script0: seq<Response>, sent0: seq<Request>, url: string,
                               objectName: string, objectType: string, properties: PhpArray<Value>,
                               content: string, contentType: string, options: PhpArray<string>,
                               r: Result<ObjectRecord, CmisError>)
      reads this
    {
      var hashValues := WithTypeId(properties, objectType);
      Delivered(r)
      && (r.Success? ==>
            sent != [] && LastSent().verb == POST && LastSent().url == GetOpUrl(url, authOptions)
            && LastSent().contentType == MIME_ATOM_XML_ENTRY
            && exists xml :: PropertyBlocks(hashValues, xml)
                 && LastSent().content == PostObjectEntry(xml, content, contentType, options, htmlEntities(objectName), base64))
      && (PropertiesCached(c0, objectType) ==>
            var xml := PropertiesXml(TypesIn(c0.types[objectType], hashValues), hashValues);
            AnsweredFrom(c0, script0, sent0, POST,
                         Request(POST, GetOpUrl(url, authOptions),
                                 PostObjectEntry(xml, content, contentType, options, htmlEntities(objectName), base64),
                                 MIME_ATOM_XML_ENTRY),
                         r))
    }

    /**
     * postObject of `folderId` from the state (c0, script0, sent0): an
     * object it returns is cached and came from a POST of the entry around
     * some property blocks; when the folder's links are cached, it is as
     * PostedFrom to the folder's `down` link with the options appended, and
     * nothing is fetched first.
     */
    ghost predicate PostsObjectFrom(c0: Caches, script0: seq<Response>, sent0: seq<Request>, folderId: string,
                                    objectName: string, objectType: string, properties: PhpArray<Value>,
                                    content: string, contentType: string, options: PhpArray<string>,
                                    r: Result<ObjectRecord, CmisError>)
      reads this
    {
      Delivered(r)
      && (r.Success? ==>
            sent != [] && LastSent().verb == POST && LastSent().contentType == MIME_ATOM_XML_ENTRY
            && exists xml :: PropertyBlocks(WithTypeId(properties, objectType), xml)
                 && LastSent().content == PostObjectEntry(xml, content, contentType, options, htmlEntities(objectName), base64))
      && (LinksCached(c0, folderId) ==>
            PostedFrom(c0, script0, sent0, GetOpUrl(TextAt(c0.links[folderId], LINK_DOWN), Some(options)),
                       objectName, objectType, properties, content, contentType, options, r))
    }

    /** An entry postEntry sent: a POST to the url of the entry around some property blocks of the properties. */
    ghost predicate SentEntry(url: string, properties: PhpArray<Value>, content: string, contentType: string,
                              options: PhpArray<string>)
      reads this
    {
      sent != [] && LastSent().verb == POST && LastSent().url == GetOpUrl(url, authOptions)
      && LastSent().contentType == MIME_ATOM_XML_ENTRY
      && exists xml :: PropertyBlocks(properties, xml)
           && LastSent().content == PostEntryEntry(xml, content, contentType, options, base64)
    }

    /**
     * postEntry from the state (c0, script0, sent0), once the object type is
     * known: as SentEntry for an object it returns, which is cached; when
     * the type's property definitions are cached, exactly the POST of the
     * entry around the blocks the cached definition gives.
     */
    ghost predicate EntryPostedFrom(c0: Caches, script0: seq<Response>, sent0: seq<Request>, url: string,
                                    objectType: string, properties: PhpArray<Value>, content: string,
                                    contentType: string, options: PhpArray<string>, r: Result<ObjectRecord, CmisError>)
      reads this
    {
      Delivered(r)
      && (r.Success? ==> SentEntry(url, properties, content, contentType, options))
      && (PropertiesCached(c0, objectType) ==>
            var xml := PropertiesXml(TypesIn(c0.types[objectType], properties), properties);
            AnsweredFrom(c0, script0, sent0, POST,
                         Request(POST, GetOpUrl(url, authOptions), PostEntryEntry(xml, content, contentType, options, base64),
                                 MIME_ATOM_XML_ENTRY),
                         r))
    }

    /** An entry updateProperties sent: a PUT to the url of the entry around some property blocks, with that title. */
    ghost predicate SentUpdate(url: string, properties: PhpArray<Value>, options: PhpArray<string>, title: string)
      reads this
    {
      sent != [] && LastSent().verb == PUT && LastSent().url == GetOpUrl(url, authOptions)
      && LastSent().contentType == MIME_ATOM_XML_ENTRY
      && exists xml :: PropertyBlocks(properties, xml) && LastSent().content == UpdateEntry(xml, options, title)
    }

    /**
     * updateProperties from the state (c0, script0, sent0), once the edit
     * url, the title and the object type are known: as SentUpdate for an
     * object it returns, which is cached; when the type's property
     * definitions are cached, exactly the PUT of the entry around the blocks
     * the cached definition gives.
     */
    ghost predicate UpdatedFrom(c0: Caches, script0: seq<Response>, sent0: seq<Request>, url: string, title: string,
                                objectType: string, properties: PhpArray<Value>, options: PhpArray<string>,
                                r: Result<ObjectRecord, CmisError>)
      reads this
    {
      Delivered(r)
      && (r.Success? ==> SentUpdate(url, properties, options, title))
      && (PropertiesCached(c0, objectType) ==>
            var xml := PropertiesXml(TypesIn(c0.types[objectType], properties), properties);
            AnsweredFrom(c0, script0, sent0, PUT,
                         Request(PUT, GetOpUrl(url, authOptions), UpdateEntry(xml, options, title), MIME_ATOM_XML_ENTRY),
                         r))
    }

    /** A session just connected: empty caches, nothing sent. */
    constructor (workspace: Workspace, authOptions: Option<seq<(string, string)>>,
                 htmlEntities: string -> string, base64: string -> string, script: seq<Response>)
      ensures this.workspace == workspace && this.authOptions == authOptions
      ensures this.htmlEntities == htmlEntities && this.base64 == base64
      ensures Cached() == NO_CACHES && this.script == script && sent == []
    {
      this.workspace := workspace;
      this.authOptions := authOptions;
      this.htmlEntities := htmlEntities;
      this.base64 := base64;
      linkCache := map[];
      titleCache := map[];
      typeIdCache := map[];
      typeCache := map[];
      changeTokenCache := map[];
      this.script := script;
      sent := [];
    }

    // ---- the transport ----

    /** doRequest: the url gets the connection options, the request is logged, the next answer is taken. */
    method DoRequest(m: HttpMethod, url: string, content: string, contentType: string) returns (resp: Response)
      modifies this
      ensures resp == NextResponse(old(script))
      ensures SentOne(Request(m, GetOpUrl(url, authOptions), content, contentType))
      ensures Cached() == old(Cached())
    {
      resp := NextResponse(script);
      script := LaterResponses(script);
      sent := sent + [Request(m, GetOpUrl(url, authOptions), content, contentType)];
    }

    method DoGet(url: string) returns (r: Result<Response, CmisError>)
      modifies this
      ensures r == Checked(GET, NextResponse(old(script)))
      ensures SentOne(Request(GET, GetOpUrl(url, authOptions), "", "")) && Cached() == old(Cached())
    {
      var resp := DoRequest(GET, url, "", "");
      r := Checked(GET, resp);
    }

    method DoPost(url: string, content: string, contentType: string) returns (r: Result<Response, CmisError>)
      modifies this
      ensures r == Checked(POST, NextResponse(old(script)))
      ensures SentOne(Request(POST, GetOpUrl(url, authOptions), content, contentType)) && Cached() == old(Cached())
    {
      var resp := DoRequest(POST, url, content, contentType);
      r := Checked(POST, resp);
    }

    method DoPut(url: string, content: string, contentType: string) returns (r: Result<Response, CmisError>)
      modifies this
      ensures r == Checked(PUT, NextResponse(old(script)))
      ensures SentOne(Request(PUT, GetOpUrl(url, authOptions), content, contentType)) && Cached() == old(Cached())
    {
      var resp := DoRequest(PUT, url, content, contentType);
      r := Checked(PUT, resp);
    }

    method DoDelete(url: string) returns (r: Result<Response, CmisError>)
      modifies this
      ensures r == Checked(DELETE, NextResponse(old(script)))
      ensures SentOne(Request(DELETE, GetOpUrl(url, authOptions), "", "")) && Cached() == old(Cached())
    {
      var resp := DoRequest(DELETE, url, "", "");
      r := Checked(DELETE, resp);
    }

    // ---- the caches ----

    /** cacheObjectInfo. */
    method CacheObjectInfo(obj: ObjectRecord)
      modifies this
      ensures Cached() == CacheObject(old(Cached()), obj)
      ensures script == old(script) && sent == old(sent)
    {
      var id := obj.id;
      linkCache := linkCache[id := obj.links];
      titleCache := titleCache[id := Lookup(obj.properties, NAME)];
      typeIdCache := typeIdCache[id := Lookup(obj.properties, OBJECT_TYPE_ID)];
      if IsSet(obj.properties, CHANGE_TOKEN) {
        changeTokenCache := changeTokenCache[id := obj.properties[CHANGE_TOKEN]];
      }
    }

    /** cacheFeedInfo: every list slot of the feed, in order. */
    method CacheFeedInfo(feed: ObjectFeed)
      modifies this
      ensures Cached() == CacheObjects(old(Cached()), feed.objectList)
      ensures script == old(script) && sent == old(sent)
    {
      var objs := feed.objectList;
      var i := 0;
      while i < |objs|
        invariant 0 <= i <= |objs|
        invariant Cached() == CacheObjects(old(Cached()), objs[..i])
        invariant script == old(script) && sent == old(sent)
      {
        CacheObjectInfo(objs[i]);
        assert objs[..i + 1][..i] == objs[..i];
        i := i + 1;
      }
      assert objs[..i] == objs;
    }

    /** cacheTypeInfo. */
    method CacheTypeInfo(def: TypeDef)
      modifies this
      ensures Cached() == CacheType(old(Cached()), def)
      ensures script == old(script) && sent == old(sent)
    {
      typeCache := typeCache[def.id := def];
    }

    /** cacheTypeFeedInfo: every list slot of the type feed, in order. */
    method CacheTypeFeedInfo(feed: TypeFeed)
      modifies this
      ensures Cached() == CacheTypes(old(Cached()), feed.objectList)
      ensures script == old(script) && sent == old(sent)
    {
      var defs := feed.objectList;
      var i := 0;
      while i < |defs|
        invariant 0 <= i <= |defs|
        invariant Cached() == CacheTypes(old(Cached()), defs[..i])
        invariant script == old(script) && sent == old(sent)
      {
        CacheTypeInfo(defs[i]);
        assert defs[..i + 1][..i] == defs[..i];
        i := i + 1;
      }
      assert defs[..i] == defs;
    }

    // ---- fetching ----

    /** getObject: fill the objectbyid template, GET it, extract the object and cache it. */
    method GetObject(objectId: string, options: PhpArray<string>) returns (r: Result<ObjectRecord, CmisError>)
      modifies this
      ensures r == FetchedObject(GET, NextResponse(old(script)))
      ensures SentOne(Request(GET, GetOpUrl(ObjectUrl(workspace, objectId, options), authOptions), "", ""))
      ensures Cached() == if r.Success? then CacheObject(old(Cached()), r.value) else old(Cached())
    {
      var varmap := Put(options, "id", objectId);
      var url := ProcessTemplate(TextAt(workspace.uriTemplates, URI_TEMPLATE_OBJECT_BY_ID), varmap);
      var ret := DoGet(url);
      if ret.Failure? {
        return Failure(ret.error);
      }
      r := ExtractObject(ret.value.document);
      if r.Success? {
        CacheObjectInfo(r.value);
      }
    }

    /** getTypeDefinition: fill the typebyid template, GET it, extract the definition and cache it. */
    method GetTypeDefinition(typeId: string, options: PhpArray<string>) returns (r: Result<TypeDef, CmisError>)
      modifies this
      ensures r == FetchedType(NextResponse(old(script)))
      ensures SentOne(Request(GET, GetOpUrl(TypeUrl(workspace, typeId, options), authOptions), "", ""))
      ensures Cached() == if r.Success? then CacheType(old(Cached()), r.value) else old(Cached())
    {
      var varmap := Put(options, "id", typeId);
      var url := ProcessTemplate(TextAt(workspace.uriTemplates, URI_TEMPLATE_TYPE_BY_ID), varmap);
      var ret := DoGet(url);
      if ret.Failure? {
        return Failure(ret.error);
      }
      var def := ExtractTypeDef(ret.value.document);
      CacheTypeInfo(def);
      r := Success(def);
    }

    // ---- lookups with a fetch fallback ----

    /**
     * getLink: an id that is a key of the link cache is answered from it
     * ("" for a missing relation); any other id is fetched with getObject.
     */
    method GetLink(objectId: string, linkName: string) returns (r: Result<string, CmisError>)
      modifies this
      ensures old(LinksCached(Cached(), objectId)) ==>
                Quiet() && r == Success(TextAt(old(linkCache)[objectId], linkName))
      ensures !old(LinksCached(Cached(), objectId)) ==>
                FetchesObject(objectId) && r == FetchedLink(FetchedObject(GET, NextResponse(old(script))), linkName)
    {
      if objectId in linkCache {
        return Success(TextAt(linkCache[objectId], linkName));
      }
      var obj := GetObject(objectId, []);
      r := FetchedLink(obj, linkName);
    }

    /** getTitle: a truthy cached name is answered from the cache; otherwise the object is fetched. */
    method GetTitle(objectId: string) returns (r: Result<Value, CmisError>)
      modifies this
      ensures old(TitleCached(Cached(), objectId)) ==> Quiet() && r == Success(old(titleCache)[objectId])
      ensures !old(TitleCached(Cached(), objectId)) ==>
                FetchesObject(objectId) && r == FetchedProperty(FetchedObject(GET, NextResponse(old(script))), NAME)
    {
      if Truthy(Lookup(titleCache, objectId)) {
        return Success(titleCache[objectId]);
      }
      var obj := GetObject(objectId, []);
      r := FetchedProperty(obj, NAME);
    }

    /** getObjectType: a truthy cached type id is answered from the cache; otherwise the object is fetched. */
    method GetObjectType(objectId: string) returns (r: Result<Value, CmisError>)
      modifies this
      ensures old(TypeIdCached(Cached(), objectId)) ==> Quiet() && r == Success(old(typeIdCache)[objectId])
      ensures !old(TypeIdCached(Cached(), objectId)) ==>
                FetchesObject(objectId) && r == FetchedProperty(FetchedObject(GET, NextResponse(old(script))), OBJECT_TYPE_ID)
    {
      if Truthy(Lookup(typeIdCache, objectId)) {
        return Success(typeIdCache[objectId]);
      }
      var obj := GetObject(objectId, []);
      r := FetchedProperty(obj, OBJECT_TYPE_ID);
    }

    /** getTypeLink: a cached definition with links answers; otherwise the definition is fetched. */
    method GetTypeLink(typeId: string, linkName: string) returns (r: Result<string, CmisError>)
      modifies this
      ensures old(TypeLinksCached(Cached(), typeId)) ==>
                Quiet() && r == Success(TextAt(old(typeCache)[typeId].links, linkName))
      ensures !old(TypeLinksCached(Cached(), typeId)) ==>
                FetchesType(typeId) && r == FetchedTypeLink(FetchedType(NextResponse(old(script))), linkName)
    {
      if typeId in typeCache && typeCache[typeId].links != map[] {
        return Success(TextAt(typeCache[typeId].links, linkName));
      }
      var def := GetTypeDefinition(typeId, []);
      r := FetchedTypeLink(def, linkName);
    }

    /** getPropertyType: a cached definition with property definitions answers; otherwise it is fetched. */
    method GetPropertyType(typeId: string, propertyId: string) returns (r: Result<string, CmisError>)
      modifies this
      ensures old(PropertiesCached(Cached(), typeId)) ==>
                Quiet() && r == Success(PropertyTypeIn(old(typeCache)[typeId], propertyId))
      ensures !old(PropertiesCached(Cached(), typeId)) ==>
                FetchesType(typeId) && r == FetchedPropertyType(FetchedType(NextResponse(old(script))), propertyId)
    {
      if typeId in typeCache && typeCache[typeId].properties != map[] {
        return Success(PropertyTypeIn(typeCache[typeId], propertyId));
      }
      var def := GetTypeDefinition(typeId, []);
      r := FetchedPropertyType(def, propertyId);
    }
      /**
     * One pass of processPropertyTemplates' loop: the property's type from
     * getPropertyType, then its block and the `properties` entry it leaves.
     */
    method PropertyStepOf(objectType: string, propId: string, propValue: Value, slot: Option<string>)
      returns (r: Result<(string, Option<string>), CmisError>, ghost t: string)
      modifies this
      ensures r.Success? ==> r.value.1 == NextSlot(slot, propValue) && r.value.0 == Block(TypeTag(t), propId, r.value.1)
      ensures old(PropertiesCached(Cached(), objectType)) ==>
                Quiet() && r.Success? && t == PropertyTypeIn(old(typeCache)[objectType], propId)
      ensures old(sent) <= sent
    {
      var propertyType := GetPropertyType(objectType, propId);
      if propertyType.Failure? {
        return Failure(propertyType.error), "";
      }
      t := propertyType.value;
      var block, slot' := RenderProperty(TypeTag(propertyType.value), propId, propValue, slot);
      r := Success((block, slot'));
    }

    // ---- processPropertyTemplates ----

    /**
     * processPropertyTemplates: one property block per property, in the
     * array's order, each with the type tag getPropertyType gives it and the
     * `properties` entry as the loop leaves it (array items are appended to
     * what an earlier property left there). A failed type lookup ends it.
     * When the object type's property definitions are cached, nothing is
     * sent and the tags are those of the cached definition.
     */
    method ProcessPropertyTemplates(objectType: string, props: PhpArray<Value>) returns (r: Result<string, CmisError>)
      modifies this
      ensures r.Success? ==> PropertyBlocks(props, r.value)
      ensures old(PropertiesCached(Cached(), objectType)) ==>
                Quiet() && r == Success(PropertiesXml(TypesIn(old(typeCache)[objectType], props), props))
      ensures old(sent) <= sent
    {
      var cached := PropertiesCached(Cached(), objectType);
      ghost var def := if cached then typeCache[objectType] else TypeDef("", map[], map[], map[]);
      var content := "";
      var slot: Option<string> := None;
      ghost var types: seq<string> := [];
      var i := 0;
      while i < |props|
        invariant 0 <= i <= |props| && |types| == i
        invariant slot == SlotAfter(Values(props[..i]))
        invariant content == PropertiesXml(types, props[..i])
        invariant cached ==> Quiet() && PropertiesCached(Cached(), objectType) && typeCache[objectType] == def
        invariant cached ==> types == TypesIn(def, props[..i])
        invariant old(sent) <= sent
      {
        var step, types' := PropertyPass(objectType, props, i, content, slot, types);
        if step.Failure? {
          assert !cached;
          return Failure(step.error);
        }
        if cached {
          TypesInStep(def, props, i);
        }
        content, slot := step.value.0, step.value.1;
        types := types';
        i := i + 1;
      }
      assert props[..i] == props;
      return Success(content);
    }

    /** One pass of processPropertyTemplates' loop: the block of property i appended to the content. */
    method PropertyPass(objectType: string, props: PhpArray<Value>, i: nat, content: string, slot: Option<string>,
                        ghost types: seq<string>)
      returns (r: Result<(string, Option<string>), CmisError>, ghost types': seq<string>)
      modifies this
      requires i < |props| && |types| == i
      requires content == PropertiesXml(types, props[..i]) && slot == SlotAfter(Values(props[..i]))
      ensures r.Success? ==> |types'| == i + 1 && r.value.0 == PropertiesXml(types', props[..i + 1])
                             && r.value.1 == SlotAfter(Values(props[..i + 1]))
      ensures old(PropertiesCached(Cached(), objectType)) ==>
                Quiet() && r.Success? && types' == types + [PropertyTypeIn(old(typeCache)[objectType], props[i].0)]
      ensures old(sent) <= sent
    {
      var step, t := PropertyStepOf(objectType, props[i].0, props[i].1, slot);
      if step.Failure? {
        return Failure(step.error), types;
      }
      var (block, slot') := step.value;
      types' := types + [t];
      PropertyStep(types, props, i, t, content, slot, block, slot');
      r := Success((content + block, slot'));
    }

    // ---- object creation ----

    /**
     * The tail that postObject, postEntry and updateProperties share: send
     * the entry, extractObject the answer and cacheObjectInfo it.
     */
    method SendEntry(m: HttpMethod, url: string, body: string) returns (r: Result<ObjectRecord, CmisError>)
      modifies this
      ensures AnsweredFrom(old(Cached()), old(script), old(sent), m, Request(m, GetOpUrl(url, authOptions), body, MIME_ATOM_XML_ENTRY), r)
      ensures Delivered(r) && LastSent() == Request(m, GetOpUrl(url, authOptions), body, MIME_ATOM_XML_ENTRY)
    {
      var resp := DoRequest(m, url, body, MIME_ATOM_XML_ENTRY);
      r := FetchedObject(m, resp);
      if r.Success? {
        CacheObjectEntries(Cached(), r.value, "");
        CacheObjectInfo(r.value);
      }
    }

    /**
     * postObject: the folder's `down` link with the options appended; the
     * properties with `cmis:objectTypeId` added when unset; the entry with
     * the property blocks, the content element and the title and summary
     * defaults; then POST, extractObject and cacheObjectInfo.
     */
    method PostObject(folderId: string, objectName: string, objectType: string, properties: PhpArray<Value>,
                      content: string, contentType: string, options: PhpArray<string>)
      returns (r: Result<ObjectRecord, CmisError>)
      modifies this
      ensures PostsObjectFrom(old(Cached()), old(script), old(sent), folderId, objectName, objectType, properties,
                              content, contentType, options, r)
    {
      var link := GetLink(folderId, LINK_DOWN);
      if link.Failure? {
        return Failure(link.error);
      }
      var url := GetOpUrl(link.value, Some(options));
      r := PostObjectTo(url, objectName, objectType, properties, content, contentType, options);
    }

    /** The rest of postObject, once the url is known. */
    method PostObjectTo(url: string, objectName: string, objectType: string, properties: PhpArray<Value>,
                        content: string, contentType: string, options: PhpArray<string>)
      returns (r: Result<ObjectRecord, CmisError>)
      modifies this
      ensures PostedFrom(old(Cached()), old(script), old(sent), url, objectName, objectType, properties,
                         content, contentType, options, r)
    {
      var hashValues := WithTypeId(properties, objectType);
      var xml := ProcessPropertyTemplates(objectType, hashValues);
      if xml.Failure? {
        return Failure(xml.error);
      }
      var values := PostObjectValues(options, xml.value, ContentEntry(content, contentType, base64), htmlEntities(objectName));
      var body := ProcessTemplate(ENTRY_TEMPLATE, values);
      r := SendEntry(POST, url, body);
    }

    /**
     * postEntry: the object type from the properties (or from getObjectType
     * of their object id), the url with the options appended, the property
     * blocks, the content element when there is content; then POST,
     * extractObject and cacheObjectInfo.
     */
    method PostEntry(url: string, properties: PhpArray<Value>, content: string, contentType: string,
                     options: PhpArray<string>)
      returns (r: Result<ObjectRecord, CmisError>)
      modifies this
      ensures Delivered(r)
      ensures r.Success? ==> SentEntry(GetOpUrl(url, Some(options)), properties, content, contentType, options)
      ensures var t := EntryType(old(Cached()), properties);
              t.Some? ==> EntryPostedFrom(old(Cached()), old(script), old(sent), GetOpUrl(url, Some(options)), t.value,
                                          properties, content, contentType, options, r)
      ensures EntryType(old(Cached()), properties).None? ==>
                |sent| > |old(sent)| && sent[|old(sent)|] == ObjectRequest(ToText(Get(properties, OBJECT_ID, Null)))
    {
      var objType := EntryTypeOf(properties);
      if objType.Failure? {
        return Failure(objType.error);
      }
      r := PostEntryAs(GetOpUrl(url, Some(options)), objType.value, properties, content, contentType, options);
    }

    /**
     * postEntry's object type: read from the properties, or from
     * getObjectType of their object id, which sends the getObject when the
     * type id is not cached.
     */
    method EntryTypeOf(properties: PhpArray<Value>) returns (t: Result<string, CmisError>)
      modifies this
      ensures EntryType(old(Cached()), properties).Some? ==>
                Quiet() && t == Success(EntryType(old(Cached()), properties).value)
      ensures EntryType(old(Cached()), properties).None? ==>
                |sent| == |old(sent)| + 1 && sent[|old(sent)|] == ObjectRequest(ToText(Get(properties, OBJECT_ID, Null)))
    {
      if IsSetAt(properties, OBJECT_TYPE_ID) {
        t := Success(ToText(Get(properties, OBJECT_TYPE_ID, Null)));
      } else if IsSetAt(properties, OBJECT_ID) {
        var objType := GetObjectType(ToText(Get(properties, OBJECT_ID, Null)));
        if objType.Failure? {
          return Failure(objType.error);
        }
        t := Success(ToText(objType.value));
      } else {
        t := Success("");
      }
    }

    /** The rest of postEntry, once the url and the object type are known. */
    method PostEntryAs(url: string, objectType: string, properties: PhpArray<Value>, content: string,
                       contentType: string, options: PhpArray<string>)
      returns (r: Result<ObjectRecord, CmisError>)
      modifies this
      ensures EntryPostedFrom(old(Cached()), old(script), old(sent), url, objectType, properties, content, contentType,
                              options, r)
      ensures old(sent) <= sent
    {
      var xml := ProcessPropertyTemplates(objectType, properties);
      if xml.Failure? {
        return Failure(xml.error);
      }
      var body := ProcessTemplate(ENTRY_TEMPLATE, EntryValues(options, xml.value, ContentEntry(content, contentType, base64)));
      r := SendEntry(POST, url, body);
    }

    /** getTitle, then getObjectType, of one object; with both cached, neither sends anything. */
    method TitleAndType(objectId: string) returns (title: Result<Value, CmisError>, objectType: Result<Value, CmisError>)
      modifies this
      ensures old(TitleCached(Cached(), objectId) && TypeIdCached(Cached(), objectId)) ==>
                Quiet() && title == Success(old(titleCache)[objectId]) && objectType == Success(old(typeIdCache)[objectId])
      ensures title.Failure? ==> objectType == title
    {
      title := GetTitle(objectId);
      if title.Failure? {
        return title, title;
      }
      objectType := GetObjectType(objectId);
    }

    // ---- updating ----

    /**
     * updateProperties: getTitle, getObjectType and the `edit` link of the
     * object, the url with the options appended, the property blocks for
     * the object's type, and the entry titled (and summarised) with the
     * object's name; then PUT, extractObject and cacheObjectInfo. The change
     * token is written to a copy the entry is no longer built from.
     */
    method UpdateProperties(objectId: string, properties: PhpArray<Value>, options: PhpArray<string>)
      returns (r: Result<ObjectRecord, CmisError>)
      modifies this
      ensures Delivered(r)
      ensures r.Success? ==> exists url, title :: SentUpdate(url, properties, options, title)
      ensures old(UpdateCached(Cached(), objectId)) ==>
                UpdatedFrom(old(Cached()), old(script), old(sent), GetOpUrl(TextAt(old(linkCache)[objectId], LINK_EDIT), Some(options)),
                            ToText(old(titleCache)[objectId]), ToText(old(typeIdCache)[objectId]), properties, options, r)
    {
      var objectName, objectType := TitleAndType(objectId);
      if objectType.Failure? {
        return Failure(objectType.error);
      }
      var link := GetLink(objectId, LINK_EDIT);
      if link.Failure? {
        return Failure(link.error);
      }
      r := UpdateTo(GetOpUrl(link.value, Some(options)), ToText(objectName.value), ToText(objectType.value), properties, options);
    }

    /** The rest of updateProperties, once the url, the title and the object type are known. */
    method UpdateTo(url: string, title: string, objectType: string, properties: PhpArray<Value>, options: PhpArray<string>)
      returns (r: Result<ObjectRecord, CmisError>)
      modifies this
      ensures UpdatedFrom(old(Cached()), old(script), old(sent), url, title, objectType, properties, options, r)
    {
      var xml := ProcessPropertyTemplates(objectType, properties);
      if xml.Failure? {
        return Failure(xml.error);
      }
      var body := ProcessTemplate(ENTRY_TEMPLATE, UpdateValues(options, xml.value, title));
      r := SendEntry(PUT, url, body);
    }

    // ---- creating and filing through postObject ----

    /** createDocument: postObject of a cmis:document. */
    method CreateDocument(folderId: string, fileName: string, properties: PhpArray<Value>, content: string,
                          contentType: string, options: PhpArray<string>)
      returns (r: Result<ObjectRecord, CmisError>)
      modifies this
      ensures PostsObjectFrom(old(Cached()), old(script), old(sent), folderId, fileName, CMIS_DOCUMENT, properties,
                              content, contentType, options, r)
    {
      r := PostObject(folderId, fileName, CMIS_DOCUMENT, properties, content, contentType, options);
    }

    /** createFolder: postObject of a cmis:folder, without content. */
    method CreateFolder(folderId: string, folderName: string, properties: PhpArray<Value>, options: PhpArray<string>)
      returns (r: Result<ObjectRecord, CmisError>)
      modifies this
      ensures PostsObjectFrom(old(Cached()), old(script), old(sent), folderId, folderName, CMIS_FOLDER, properties,
                              "", "", options, r)
    {
      r := PostObject(folderId, folderName, CMIS_FOLDER, properties, "", "", options);
    }

    /**
     * moveObject and addObjectToFolder: the object's title and type, then
     * postObject of just its id into the target folder, without content.
     */
    method FileObject(objectId: string, targetFolderId: string, options: PhpArray<string>)
      returns (r: Result<ObjectRecord, CmisError>)
      modifies this
      ensures Delivered(r)
      ensures old(TitleCached(Cached(), objectId) && TypeIdCached(Cached(), objectId)) ==>
                PostsObjectFrom(old(Cached()), old(script), old(sent), targetFolderId, ToText(old(titleCache)[objectId]),
                                ToText(old(typeIdCache)[objectId]), [(OBJECT_ID, Str(objectId))], "", "", options, r)
    {
      var objectName, objectType := TitleAndType(objectId);
      if objectType.Failure? {
        return Failure(objectType.error);
      }
      r := PostObject(targetFolderId, ToText(objectName.value), ToText(objectType.value), [(OBJECT_ID, Str(objectId))],
                      "", "", options);
    }

    /** moveObject: as FileObject, with the source folder added to the options. */
    method MoveObject(objectId: string, targetFolderId: string, sourceFolderId: string, options: PhpArray<string>)
      returns (r: Result<ObjectRecord, CmisError>)
      modifies this
      ensures Delivered(r)
      ensures old(TitleCached(Cached(), objectId) && TypeIdCached(Cached(), objectId)) ==>
                PostsObjectFrom(old(Cached()), old(script), old(sent), targetFolderId, ToText(old(titleCache)[objectId]),
                                ToText(old(typeIdCache)[objectId]), [(OBJECT_ID, Str(objectId))], "", "",
                                Put(options, "sourceFolderId", sourceFolderId), r)
    {
      r := FileObject(objectId, targetFolderId, Put(options, "sourceFolderId", sourceFolderId));
    }

    // ---- query and changes ----

    /**
     * query: the defaults, the options over them and the statement fill the
     * query template, which is POSTed to the query collection; the feed
     * extracted from the answer is cached.
     */
    method Query(statement: string, options: PhpArray<string>) returns (r: Result<ObjectFeed, CmisError>)
      modifies this
      ensures r == FetchedFeed(POST, NextResponse(old(script)))
      ensures SentOne(Request(POST, GetOpUrl(TextAt(workspace.collections, COLLECTION_QUERY), authOptions),
                              Fill(QUERY_TEMPLATE, QueryValues(statement, options)), MIME_CMIS_QUERY))
      ensures Cached() == if r.Success? then CacheObjects(old(Cached()), r.value.objectList) else old(Cached())
    {
      var body := ProcessTemplate(QUERY_TEMPLATE, QueryValues(statement, options));
      var ret := DoPost(TextAt(workspace.collections, COLLECTION_QUERY), body, MIME_CMIS_QUERY);
      if ret.Failure? {
        return Failure(ret.error);
      }
      r := ExtractObjectFeed(ret.value.document);
      if r.Success? {
        CacheFeedInfo(r.value);
      }
    }

    /**
     * getContentChanges: the changes link filled with the options; without
     * one (an empty url) NotSupported and no request; otherwise GET it and
     * cache the extracted feed.
     */
    method GetContentChanges(options: PhpArray<string>) returns (r: Result<ObjectFeed, CmisError>)
      modifies this
      ensures var url := Fill(TextAt(workspace.links, LINK_CHANGES), options);
              !Truthy(Str(url)) ==> Quiet() && r == Failure(CmisError(NotSupported, "getContentChanges", 0))
      ensures var url := Fill(TextAt(workspace.links, LINK_CHANGES), options);
              Truthy(Str(url)) ==>
                r == FetchedFeed(GET, NextResponse(old(script)))
                && SentOne(Request(GET, GetOpUrl(url, authOptions), "", ""))
                && Cached() == if r.Success? then CacheObjects(old(Cached()), r.value.objectList) else old(Cached())
    {
      var url := ProcessTemplate(TextAt(workspace.links, LINK_CHANGES), options);
      var problem := CheckUrl(url, "getContentChanges");
      if problem.Some? {
        return Failure(problem.value);
      }
      var ret := DoGet(url);
      if ret.Failure? {
        return Failure(ret.error);
      }
      r := ExtractObjectFeed(ret.value.document);
      if r.Success? {
        CacheFeedInfo(r.value);
      }
    }

    // ---- requests to an object's own links ----

    /**
     * A request to the link `linkName` of an object, from the state (c0,
     * script0, sent0): with the links cached, exactly that request and no
     * cache change; otherwise the getObject first, and the request to the
     * fetched object's link only when the fetch succeeded.
     */
    predicate LinkedFrom(c0: Caches, script0: seq<Response>, sent0: seq<Request>, objectId: string, linkName: string,
                         m: HttpMethod, content: string, contentType: string, r: Result<Response, CmisError>)
      reads this
    {
      if LinksCached(c0, objectId) then
        sent == sent0 + [Request(m, GetOpUrl(TextAt(c0.links[objectId], linkName), authOptions), content, contentType)]
        && script == LaterResponses(script0) && Cached() == c0 && r == Checked(m, NextResponse(script0))
      else
        var f := FetchedObject(GET, NextResponse(script0));
        if f.Failure? then
          sent == sent0 + [ObjectRequest(objectId)] && script == LaterResponses(script0) && Cached() == c0
          && r == Failure(f.error)
        else
          sent == sent0 + [ObjectRequest(objectId)]
                  + [Request(m, GetOpUrl(TextAt(f.value.links, linkName), authOptions), content, contentType)]
          && script == LaterResponses(LaterResponses(script0)) && Cached() == CacheObject(c0, f.value)
          && r == Checked(m, NextResponse(LaterResponses(script0)))
    }

    /** getLink, then doRequest to it and the status check. */
    method LinkedRequest(objectId: string, linkName: string, m: HttpMethod, content: string, contentType: string)
      returns (r: Result<Response, CmisError>)
      modifies this
      ensures LinkedFrom(old(Cached()), old(script), old(sent), objectId, linkName, m, content, contentType, r)
    {
      var link := GetLink(objectId, linkName);
      if link.Failure? {
        return Failure(link.error);
      }
      var resp := DoRequest(m, link.value, content, contentType);
      r := Checked(m, resp);
    }

    /** deleteObject: DELETE to the object's `edit` link. */
    method DeleteObject(objectId: string, options: PhpArray<string>) returns (e: Option<CmisError>)
      modifies this
      ensures exists resp :: LinkedFrom(old(Cached()), old(script), old(sent), objectId, LINK_EDIT, DELETE, "", "", resp)
                               && e == Outcome(resp)
    {
      var ret := LinkedRequest(objectId, LINK_EDIT, DELETE, "", "");
      e := Outcome(ret);
    }

    /** setContentStream: PUT of the content, with its media type, to the object's `edit-media` link. */
    method SetContentStream(objectId: string, content: string, contentType: string, options: PhpArray<string>)
      returns (e: Option<CmisError>)
      modifies this
      ensures exists resp :: LinkedFrom(old(Cached()), old(script), old(sent), objectId, LINK_EDIT_MEDIA, PUT, content,
                                        contentType, resp)
                               && e == Outcome(resp)
    {
      var ret := LinkedRequest(objectId, LINK_EDIT_MEDIA, PUT, content, contentType);
      e := Outcome(ret);
    }

    /** getContentStream: the body of a GET of the object's `edit-media` link. */
    method GetContentStream(objectId: string, options: PhpArray<string>) returns (r: Result<string, CmisError>)
      modifies this
      ensures exists resp :: LinkedFrom(old(Cached()), old(script), old(sent), objectId, LINK_EDIT_MEDIA, GET, "", "", resp)
                               && r.Success? == resp.Success?
                               && (r.Success? ==> r.value == resp.value.body)
                               && (r.Failure? ==> r.error == resp.error)
    {
      var ret := LinkedRequest(objectId, LINK_EDIT_MEDIA, GET, "", "");
      if ret.Failure? {
        return Failure(ret.error);
      }
      r := Success(ret.value.body);
    }

    /** deleteContentStream: DELETE to the object's `edit-media` link; the response is returned. */
    method DeleteContentStream(objectId: string, options: PhpArray<string>) returns (r: Result<Response, CmisError>)
      modifies this
      ensures LinkedFrom(old(Cached()), old(script), old(sent), objectId, LINK_EDIT_MEDIA, DELETE, "", "", r)
    {
      r := LinkedRequest(objectId, LINK_EDIT_MEDIA, DELETE, "", "");
    }

    /**
     * cancelCheckOut: an object whose `via` link is empty is not a working
     * copy (InvalidArgument, and nothing deleted); otherwise DELETE to its
     * `edit` link.
     */
    method CancelCheckOut(objectId: string, options: PhpArray<string>) returns (e: Option<CmisError>)
      modifies this
      ensures old(LinksCached(Cached(), objectId)) && !Truthy(Str(TextAt(old(linkCache)[objectId], LINK_VIA))) ==>
                Quiet() && e == Some(NOT_A_WORKING_COPY_ERROR)
      ensures old(LinksCached(Cached(), objectId)) && Truthy(Str(TextAt(old(linkCache)[objectId], LINK_VIA))) ==>
                SentOne(Request(DELETE, GetOpUrl(TextAt(old(linkCache)[objectId], LINK_EDIT), authOptions), "", ""))
                && Cached() == old(Cached()) && e == Outcome(Checked(DELETE, NextResponse(old(script))))
    {
      var via := GetLink(objectId, LINK_VIA);
      if via.Failure? {
        return Some(via.error);
      }
      if !Truthy(Str(via.value)) {
        return Some(NOT_A_WORKING_COPY_ERROR);
      }
      var ret := LinkedRequest(objectId, LINK_EDIT, DELETE, "", "");
      e := Outcome(ret);
    }
  }
}
