# CMIS AtomPub client core, modelled in Dafny

This project models the AtomPub half of a PHP client for OASIS CMIS
(Content Management Interoperability Services, version 1.0/1.1). In that
binding the server answers in Atom (RFC 4287) documents. Objects are created
and updated with Atom Publishing Protocol (RFC 5023) entries. The model
covers two PHP classes.

- `CMISRepositoryWrapper` (`atom/cmis/cmis_repository_wrapper.php`) holds:
  - the status check of each HTTP verb;
  - the table that turns an error status into an exception;
  - the query-string builder `getOpUrl`;
  - the `{name}` template filler `processTemplate`;
  - the extractors that turn a response document into links, allowable
    actions, objects, type definitions, feeds and the repository's workspace.
- `CMISService` (`atom/cmis/cmis_service.php`) holds:
  - the session object with its five metadata caches (links, titles, type ids,
    type definitions and change tokens);
  - the lookups that answer from those caches or fetch the object;
  - the builders of the request bodies (property blocks, content element,
    Atom entry, query document);
  - the write operations that send them;
  - the operations that only raise.

The model has these modules.

| module | file | models |
|---|---|---|
| `Wrappers` | `wrappers.dfy` | `Option` and `Result` |
| `Php` | `php.dfy` | PHP values and truthiness, ordered arrays as association lists (`Put`, `array_merge`), keyed assignment where the last write wins, reference slots, `(int)` parsing |
| `Status` | `status.dfy` | HTTP methods, exception kinds, `convertStatusCode`, the accepted statuses |
| `Urls` | `urls.dfy` | `http_build_query`, `getOpUrl`, `GenURLQueryString` |
| `Templates` | `templates.dfy` | `str_replace` and the token-blanking `preg_replace` of `processTemplate` |
| `Pieces` | `pieces.dfy` | templates as literal runs and placeholders, and what `processTemplate` makes of them |
| `Xml` | `xml.dfy` | the response document as a tree, `getElementsByTagName`, and the XPath expressions the extractors use |
| `Links` | `links.dfy` | `getLinksArray` and `extractAllowableActionsFromNode` |
| `Objects` | `objects.dfy` | `extractObjectFromNode` and `extractObjectFeedFromNode` |
| `Types` | `types.dfy` | `extractTypeDefFromNode` and `extractTypeFeedFromNode` |
| `Workspace` | `workspace.dfy` | `extractWorkspaceFromNode` |
| `PropertyValues` | `values.dfy` | the `properties` entry that `processPropertyTemplates` carries from property to property |
| `Requests` | `requests.dfy` | the templates and what each request body reads as |
| `Session` | `session.dfy` | the five caches as a value, and `cacheObjectInfo` / `cacheTypeInfo` and their feed forms |
| `Service` | `service.dfy` | class `CmisService`, whose fields are the caches, the workspace, the request log and the script of server answers |

The network is abstracted in `Service`:

- It is a script of answers, one per request, taken in order.
- Each answer has a status, a body and the body's document.
- Every request is appended to the log `sent`.

With this, a method's contract can state the exact request it sends, the
result it returns and the caches it leaves.

## Model

| member | source | states |
|---|---|---|
| Status.ConvertStatusCode | atom/cmis/cmis_repository_wrapper.php:123-133 | The exception always carries the status and the body as message. 400, 403, 404, 405 and 409 each give their own class (both directions). Every other code gives a runtime exception. Never NotImplemented. |
| Status.Accepts | atom/cmis/cmis_repository_wrapper.php:162-217 | GET accepts only 200, POST only 201, DELETE only 204, PUT anything in [200, 300). |
| Status.CheckStatus | atom/cmis/cmis_repository_wrapper.php:162-217 | No exception exactly when the method accepts the status. Otherwise the converted exception has the status and the body. A non-runtime kind implies a code in 400..409. |
| Status.NoContentAcceptedBy | atom/cmis/cmis_repository_wrapper.php:176-217 | 204 is success for DELETE and PUT and for nothing else. |
| Php.GetAsArray | atom/cmis/cmis_repository_wrapper.php:96-100 | Empty exactly for a loosely-null value. A list stays itself. A non-empty string becomes a one-element list. |
| Php.Put | atom/cmis/cmis_service.php:829-831 | `$a[$k] = $v`: an existing key keeps its position, a new key is appended. The key reads `v` afterwards. Every other key keeps its position and entry. |
| Php.PutGetOther | atom/cmis/cmis_service.php:834-846 | Setting one key changes neither the presence nor the value of any other key. |
| Php.MergeGet | atom/cmis/cmis_service.php:938 | In `array_merge(a, b)` a key is present iff it is in either array, and it reads as b's value when b has it, a's otherwise. |
| Php.MergeKeepsOrder | atom/cmis/cmis_service.php:938 | `array_merge` keeps the first array's keys, in order, at the front. |
| Php.MergeEntries | atom/cmis/cmis_service.php:938 | Every entry of a merge comes from one of the two arrays. |
| Php.AssignLastWins | atom/cmis/cmis_repository_wrapper.php:367-384 | Filling an array key by key: a key is present iff it was present or some pair names it, and it holds the value of the last such pair. |
| Php.AssignKeys | atom/cmis/cmis_repository_wrapper.php:367-384 | Filled from empty, the keys are exactly the keys of the pairs. |
| Php.RefSlotShowsLast | atom/cmis/cmis_repository_wrapper.php:637-641 | Through `$list[] = &$byId[$id]`, each slot shows the last item with its own id. A slot with a unique id shows its own item. A slot always agrees with the keyed array. |
| Php.ByIdKeys | atom/cmis/cmis_repository_wrapper.php:637-641 | The keyed array has exactly the items' ids. |
| Php.IntValRoundTrip | atom/cmis/cmis_repository_wrapper.php:629-630 | `(int)` of a printed count, after blanks and with an optional minus, gives the count back when it fits in a PHP integer, and PHP_INT_MAX (PHP_INT_MIN with the minus) when it does not. |
| Urls.GetOpUrl | atom/cmis/cmis_repository_wrapper.php:108-115 | The url is always a prefix of the result. Missing or empty options change nothing. Otherwise the url gets `?` (or `&` when it already holds a `?`) and then the built query. |
| Urls.GenUrlQueryString | atom/cmis/cmis_service.php:124-129 | Empty for no options; otherwise `&` followed by the built query. |
| Urls.QueryBuildersAgree | atom/cmis/cmis_service.php:124-129 | Appending GenURLQueryString equals getOpUrl exactly when the url already has a query. |
| Urls.QueryRoundTrip | atom/cmis/cmis_repository_wrapper.php:108-115 | For keys without `&` or `=` and values without `&`, the built query parses back to the options. |
| Urls.OpUrlRoundTrip | atom/cmis/cmis_repository_wrapper.php:108-115 | For such options, what getOpUrl appends after the separator parses back to them. |
| Templates.StripTokens | atom/cmis/cmis_repository_wrapper.php:312 | The blanking pass never lengthens the text. |
| Templates.TokenLength | atom/cmis/cmis_repository_wrapper.php:312 | A token is `{`, one or more of `[A-Za-z0-9_]`, then `}`; a text not starting with `{` starts no token. |
| Templates.ProcessTemplate | atom/cmis/cmis_repository_wrapper.php:303-313 | The loop that reassigns the template per value computes `Fill`: `str_replace` per value in array order, then the blanking pass. |
| Templates.FillNoBrace | atom/cmis/cmis_repository_wrapper.php:303-313 | A template without braces comes out unchanged, whatever the values. |
| Templates.FillOne | atom/cmis/cmis_repository_wrapper.php:307-309 | A supplied placeholder is replaced by its value, verbatim and in place. |
| Templates.FillMissing | atom/cmis/cmis_repository_wrapper.php:312 | A placeholder nobody supplies is blanked. |
| Templates.FillInOrder | atom/cmis/cmis_repository_wrapper.php:307-309 | Array order decides: a placeholder brought in by an earlier value is filled by a later one, while one brought in by a later value is only blanked. |
| Templates.StripRemovesOpenTokens | atom/cmis/cmis_repository_wrapper.php:312 | When every brace opens a `{word}` token, no brace is left. |
| Templates.NestedTokenSurvives | atom/cmis/cmis_repository_wrapper.php:312 | The blanking is a single pass: `{a{b}}` leaves the token `{a}`. |
| Templates.StripNoToken | atom/cmis/cmis_repository_wrapper.php:312 | A text without a token goes through the blanking pass unchanged. |
| Templates.ReplaceAbsent | atom/cmis/cmis_repository_wrapper.php:308 | `str_replace` leaves a text without the pattern's first character alone. |
| Templates.ReplaceHead | atom/cmis/cmis_repository_wrapper.php:308 | An occurrence at the front is replaced and the scan goes on after it. |
| Templates.ReplaceOtherPlaceholder | atom/cmis/cmis_repository_wrapper.php:308 | A word placeholder does not occur inside a different one. |
| Pieces.ReplaceJoin | atom/cmis/cmis_repository_wrapper.php:308 | One `str_replace` over a well-formed template plugs the value's pieces into every matching placeholder. |
| Pieces.FillMeaning | atom/cmis/cmis_repository_wrapper.php:303-313 | processTemplate on a well-formed template is its rendering by the values in array order. |
| Pieces.FillPlain | atom/cmis/cmis_repository_wrapper.php:303-313 | With brace-free values, order no longer matters: each placeholder becomes its value and the others are blanked. |
| Pieces.StripJoin | atom/cmis/cmis_repository_wrapper.php:312 | With no values left, the blanking pass drops every placeholder of a well-formed template. |
| Pieces.RenderPlug | atom/cmis/cmis_repository_wrapper.php:307-309 | Substituting the value at position `from`, then rendering with the rest, equals rendering from `from`. |
| Pieces.SlotPlain | atom/cmis/cmis_repository_wrapper.php:307-312 | A placeholder for a plain value reads as that value when the value is still ahead, and as nothing once it is behind. |
| Pieces.LiftSpells | atom/cmis/cmis_repository_wrapper.php:303-313 | Reading values as pieces spells the same strings. |
| Pieces.PutPlain | atom/cmis/cmis_service.php:834-846 | Setting a key to a brace-free value keeps an array's values plain. |
| Pieces.MergePlain | atom/cmis/cmis_service.php:938 | `array_merge` of plain arrays is plain. |
| Xml.ElementsByTagName | atom/cmis/cmis_repository_wrapper.php:446 | Only elements with that local name, each strictly smaller than the node searched. |
| Xml.FirstByTagName | atom/cmis/cmis_repository_wrapper.php:446 | `item(0)` is absent exactly when there is no such element. |
| Xml.FirstIsEarliest | atom/cmis/cmis_repository_wrapper.php:446 | `item(0)` is the first match in document order. |
| Xml.FirstText | atom/cmis/cmis_repository_wrapper.php:495 | null exactly when there is no such element; otherwise the text of the first one. |
| Xml.FirstTextOr | atom/cmis/cmis_repository_wrapper.php:719 | Where PHP goes on to use the text as a string or a key, a missing element reads as "". |
| Xml.ChildrenMatching | atom/cmis/cmis_repository_wrapper.php:321-354 | A child step keeps exactly the children that pass the test. |
| Xml.Query | atom/cmis/cmis_repository_wrapper.php:321-354 | Every node a `//` query yields passes the final test. |
| Links.LinkKey | atom/cmis/cmis_repository_wrapper.php:373-380 | A `down` link of type application/cmistree+xml is keyed `down-tree`; every other link is keyed by its rel. |
| Links.LinksKeys | atom/cmis/cmis_repository_wrapper.php:367-384 | The keys are exactly the keys of the links seen. |
| Links.LinksLastWins | atom/cmis/cmis_repository_wrapper.php:367-384 | On a repeated key, the link last in document order wins. |
| Links.DownLinks | atom/cmis/cmis_repository_wrapper.php:373-380 | `down` is present iff some `down` link is not of cmistree type. `down-tree` is present iff some link is a cmistree `down` or has rel `down-tree`. |
| Links.ExtractAllowableActions | atom/cmis/cmis_repository_wrapper.php:403-415 | Only the first allowableActions element is read. Without one the map is empty. |
| Links.ActionPresent | atom/cmis/cmis_repository_wrapper.php:403-415 | An action is present iff a child element has its name. |
| Links.ActionLast | atom/cmis/cmis_repository_wrapper.php:403-415 | An action is true iff the text of its last child element matches `^true$`, ignoring case. |
| Links.ActionValue | atom/cmis/cmis_repository_wrapper.php:403-415 | Both facts above together. |
| Links.TrueTextCases | atom/cmis/cmis_repository_wrapper.php:410 | The pattern accepts exactly `true` in any case, optionally followed by one newline. |
| Objects.PropertyValue | atom/cmis/cmis_repository_wrapper.php:480-489 | One value is stored as a scalar, several as a list in document order. |
| Objects.PropertyPresent | atom/cmis/cmis_repository_wrapper.php:466-493 | A property is present iff some property node with a propertyDefinitionId and at least one value sets it. |
| Objects.PropertyLast | atom/cmis/cmis_repository_wrapper.php:466-493 | A present property holds what the last node setting it holds. |
| Objects.PropertyRule | atom/cmis/cmis_repository_wrapper.php:466-493 | Presence and value together: a single value as a scalar, several as a list. |
| Objects.MultiValuedOfSetter | atom/cmis/cmis_service.php:160-165 | getMultiValuedProp of an extracted property gives the node's values back, except that a single empty value reads as none. |
| Objects.ExtractRenditions | atom/cmis/cmis_repository_wrapper.php:448-463 | Renditions are numbered by position among all renditions. A rendition without element children leaves its number unused. Each rendition's keys are its children's local names. |
| Objects.RenditionFields | atom/cmis/cmis_repository_wrapper.php:454-459 | A rendition's fields are keyed by the local names of its element children. |
| Objects.ExtractObject | atom/cmis/cmis_repository_wrapper.php:440-518 | Without an `object` element (or with a multi-valued objectId) it is a parse failure. Otherwise: `id` is `cmis:objectId`, `uuid` is the first `id` text, the properties, links and allowable actions are those extracted from the same nodes. |
| Objects.ExtractChildren | atom/cmis/cmis_repository_wrapper.php:498-514 | Nested children exist only when a `children` element holds a `feed`. Without `children` there are none. |
| Objects.ExtractObjectFeed | atom/cmis/cmis_repository_wrapper.php:625-641 | One record per `/atom:feed/atom:entry`, with `numItems` read from the feed (-1 without it). A failure is always a parse failure. |
| Objects.ExtractEntries | atom/cmis/cmis_repository_wrapper.php:636-640 | Success gives each entry's own extraction in order. The first malformed entry stops it. |
| Objects.FirstFailure | atom/cmis/cmis_repository_wrapper.php:637-640 | All values when every step succeeds; otherwise the error of the first failing step, all earlier steps having succeeded. |
| Objects.FeedSlots | atom/cmis/cmis_repository_wrapper.php:637-641 | Each list slot holds the last record with its entry's id, agrees with the by-id map, and a unique id shows its own record. |
| Objects.FeedKeys | atom/cmis/cmis_repository_wrapper.php:637-641 | The by-id map has exactly the records' ids. |
| Objects.NumItemsOf | atom/cmis/cmis_repository_wrapper.php:629-630 | A numItems element holding a decimal count gives that count, saturated at PHP_INT_MAX. |
| Types.DefinitionKeys | atom/cmis/cmis_repository_wrapper.php:549-584 | `properties` is keyed exactly by the ids of the `cmis:property…Definition` children. |
| Types.DefinitionFields | atom/cmis/cmis_repository_wrapper.php:549-561 | `properties[id]` holds the texts of the first propertyType and cardinality of the LAST definition child with that id. |
| Types.AttributeKeys | atom/cmis/cmis_repository_wrapper.php:549-584 | `attributes` is keyed exactly by the qualified names of the other children, and never by a definition name. |
| Types.AttributeOf | atom/cmis/cmis_repository_wrapper.php:549-565 | `attributes[name]` holds the text of the LAST non-definition child with that qualified name. |
| Types.TypeDefId | atom/cmis/cmis_repository_wrapper.php:549-567 | The id is the text of the last `cmis:id` child of `cmisra:type`, and "" when there is none. |
| Types.FilteredLastWins | atom/cmis/cmis_repository_wrapper.php:550-566 | Storing the kept children one by one, a key is present iff some kept child has it, and holds the value of the last such child. |
| Types.ExtractTypeDef | atom/cmis/cmis_repository_wrapper.php:543-598 | The definition's id is what `attributes["cmis:id"]` holds after the loop ("" without one), and its links are the node's links. |
| Types.TypeDefs | atom/cmis/cmis_repository_wrapper.php:666-678 | One definition per feed entry, in document order. |
| Types.ExtractTypeFeed | atom/cmis/cmis_repository_wrapper.php:666-678 | One list slot per entry. |
| Types.TypeFeedSlots | atom/cmis/cmis_repository_wrapper.php:666-678 | Each slot shows the last definition with its entry's id. |
| Workspace.ExtractWorkspace | atom/cmis/cmis_repository_wrapper.php:706-758 | The workspace's links are those of the node. |
| Workspace.UriTemplateOf | atom/cmis/cmis_repository_wrapper.php:717-720 | URI templates are keyed by type and hold the template of the last uritemplate of that type. |
| Workspace.CollectionOf | atom/cmis/cmis_repository_wrapper.php:722-725 | Collections are keyed by collectionType and hold the href of the last collection of that type. |
| Workspace.CapabilityOf | atom/cmis/cmis_repository_wrapper.php:727-730 | Capabilities are keyed by each capability child's qualified name and hold the last text. |
| Workspace.RepositoryInfoOf | atom/cmis/cmis_repository_wrapper.php:732-755 | Repository info holds the plain children of repositoryInfo and of aclCapability. On a clash the acl child wins. |
| Workspace.PermissionOf | atom/cmis/cmis_repository_wrapper.php:737-740 | Each permission maps to the description of its last occurrence. |
| Workspace.MappingOf | atom/cmis/cmis_repository_wrapper.php:742-750 | A mapping key lists the permission texts of its last mapping, in order and with repeats. |
| Workspace.LastEntryWins | atom/cmis/cmis_repository_wrapper.php:706-758 | A map filled one node at a time has exactly the nodes' keys, each holding the value of the last node with that key. |
| Workspace.LaterEntriesWin | atom/cmis/cmis_repository_wrapper.php:732-755 | Two fills into one map: the second one's entries win. |
| Session.CacheObjectEntries | atom/cmis/cmis_service.php:136-144 | Caching an object stores its links, name and type id. It stores a change token only when the object carries one and keeps the earlier one otherwise. Other ids and the type cache are untouched. |
| Session.FeedLastWins | atom/cmis/cmis_service.php:170-174 | After a feed is cached, each id shows the last object with it. Its change token is the last one such an object carried, or the earlier one. Ids outside the feed are untouched. |
| Session.CacheType | atom/cmis/cmis_service.php:188-191 | The type cache gains the definition's id and nothing else changes. |
| Session.TypeFeedLastWins | atom/cmis/cmis_service.php:179-183 | Each id holds the last definition with it; ids outside the feed are untouched, and so are the other caches. |
| Session.TypesAssigned | atom/cmis/cmis_service.php:179-183 | Caching a type feed is keyed assignment of its definitions to the type cache. |
| Session.LookupsAfterCaching | atom/cmis/cmis_service.php:214-261 | Once an object is cached its links are always answered from the cache. Its name and type id are answered only when truthy, so an empty or "0" name is fetched again. |
| Session.EmptyLinksStillCached | atom/cmis/cmis_service.php:255-261 | A cached object without links still answers getLink, with "" for every relation. |
| Session.MultiValuedProp | atom/cmis/cmis_service.php:160-165 | An unset property gives []. A list gives itself. A non-empty scalar gives a one-element list. The result is empty iff the value is loosely null. |
| Session.WithTypeId | atom/cmis/cmis_service.php:828-831 | `cmis:objectTypeId` is added only when unset; a set one is never overwritten. |
| Session.WithTypeIdOther | atom/cmis/cmis_service.php:828-831 | Every other property keeps its value. |
| Session.TypesIn | atom/cmis/cmis_service.php:658 | The type each property gets from one definition, in the array's order, "" for a property the definition lacks. |
| PropertyValues.TypeTagOf | atom/cmis/cmis_service.php:642-658 | A known property type's tag, lower-cased, is the type itself. |
| PropertyValues.SlotOfArrays | atom/cmis/cmis_service.php:657-668 | While only lists have come by, the `properties` entry holds the value elements of all their items. |
| PropertyValues.SlotAfterScalar | atom/cmis/cmis_service.php:657-668 | The entry is never reset: after a scalar it holds that scalar followed by the items of every later list. |
| PropertyValues.SharedValueBuffer | atom/cmis/cmis_service.php:657-668 | Two list properties in a row: the second block still carries the first one's value element. |
| PropertyValues.SlotAfterSnoc | atom/cmis/cmis_service.php:657-668 | One more property moves the entry by one step. |
| Requests.InstantiateProperty | atom/cmis/cmis_service.php:627-633 | The property template filled reads as the property element with its tag, id and value. |
| Requests.InstantiateContent | atom/cmis/cmis_service.php:700-711 | The content template filled reads as the content element with the media type and the data. |
| Requests.BlockText | atom/cmis/cmis_service.php:668 | With brace-free parts, a property block is the property element with those parts. |
| Requests.PropertiesXmlSnoc | atom/cmis/cmis_service.php:657-669 | One more property appends one block, built from the entry as that property leaves it. |
| Requests.PropertiesXmlStep | atom/cmis/cmis_service.php:657-669 | With brace-free ids and values, each property adds exactly one property element. |
| Requests.PropertiesXmlNoBrace | atom/cmis/cmis_service.php:641-671 | The property blocks hold no brace the entry template could mistake for a placeholder. |
| Requests.EntryText | atom/cmis/cmis_service.php:606-621 | The entry template filled with plain values: title, summary slot, content and property blocks, each absent one empty. |
| Requests.FillSpecial | atom/cmis/cmis_service.php:834-847 | Filling a well-formed template whose values include the summary template: each placeholder reads as its value, `{SUMMARY}` as the summary element. |
| Requests.SummaryAfter | atom/cmis/cmis_service.php:834-846 | In postObject, an options `summary` comes before the summary template and is blanked; a default one comes after it and is filled. |
| Requests.PostObjectBody | atom/cmis/cmis_service.php:822-853 | postObject's entry: the options' title or else the sanitised name; a summary of the sanitised name, or an empty one when the options have a summary; the content element when there is content; the property blocks. |
| Requests.PostObjectSlots | atom/cmis/cmis_service.php:834-846 | What each slot of postObject's values reads as. |
| Requests.PostObjectTitle | atom/cmis/cmis_service.php:841-843 | postObject's title: the option when given, else the sanitised name. |
| Requests.PostObjectSummary | atom/cmis/cmis_service.php:834-846 | postObject's summary slot: empty when the options give a summary (blanked before it is filled), else the sanitised name. |
| Requests.EntryValuesGet | atom/cmis/cmis_service.php:834-839 | The entry values hold the property blocks, the summary template and the content given; a summary template the options lacked comes after all of them. |
| Requests.PostEntryBody | atom/cmis/cmis_service.php:859-890 | postEntry's entry: the options' title, an empty summary, the content element when there is content, the property blocks. |
| Requests.PostEntrySlots | atom/cmis/cmis_service.php:876-881 | What each slot of postEntry's values reads as: the options' title, an empty summary, the content, the property blocks. |
| Requests.UpdateBody | atom/cmis/cmis_service.php:916-951 | updateProperties' entry: the options' title or else the object's name; the options' summary or else the name; no content; the property blocks. |
| Requests.UpdateSlots | atom/cmis/cmis_service.php:932-946 | What each slot of updateProperties' values reads as. |
| Requests.UpdateTitle | atom/cmis/cmis_service.php:940-942 | The title: the option when given, else the object's name. |
| Requests.UpdateSummary | atom/cmis/cmis_service.php:932-946 | The summary slot: the option when given, else the object's name, filled in either case because SUMMARY comes first. |
| Requests.FixedFirst | atom/cmis/cmis_service.php:932-938 | After merging the options over the fixed pair, SUMMARY is at position 1 and any option `summary` comes after it. |
| Requests.UpdateGet | atom/cmis/cmis_service.php:932-938 | A key reads as its option when given, otherwise as the fixed value. |
| Requests.WithDefault | atom/cmis/cmis_service.php:841-846 | `if (!isset)`: a present key is kept, a missing one is appended with the default. |
| Requests.Sanitize | atom/cmis/cmis_service.php:842 | The title filter keeps only letters, digits, blanks, `.`, `&` and `;`; the result is never longer and holds no brace. |
| Requests.SanitizeKeeps | atom/cmis/cmis_service.php:842 | A text passes unchanged exactly when every character is kept. |
| Requests.SanitizeAppend | atom/cmis/cmis_service.php:842 | The filter works character by character: filtering a join is joining the filtered parts. |
| Requests.SanitizeIdempotent | atom/cmis/cmis_service.php:842 | Filtering twice is filtering once. |
| Requests.ContentEntry | atom/cmis/cmis_service.php:679-686 | No content element exactly when the content is falsy. |
| Requests.ContentText | atom/cmis/cmis_service.php:679-686 | Truthy content gives the content element around the media type and the encoded data. |
| Requests.QueryBody | atom/cmis/cmis_service.php:557-568 | The query document holds the statement, even when the options carry a `q`. Each flag is the caller's option or else its default: false, true, nothing, nothing, 10, 0. |
| Requests.QueryGet | atom/cmis/cmis_service.php:558-566 | Every key but `q` reads as the caller's option, or else the default. |
| Service.Checked | atom/cmis/cmis_repository_wrapper.php:162-217 | The response is returned exactly when the method accepts its status; otherwise the converted exception. |
| Service.NoResponseFails | atom/cmis/cmis_repository_wrapper.php:228-281 | An unanswered request fails as a runtime exception with code 0, whatever the method. |
| Service.FetchedObject | atom/cmis/cmis_service.php:730-738 | The status check for the method, then extractObject. |
| Service.FetchedType | atom/cmis/cmis_service.php:347-355 | The GET status check, then extractTypeDef. |
| Service.FetchedFeed | atom/cmis/cmis_service.php:557-572 | The status check for the method, then extractObjectFeed. |
| Service.ObjectUrlOf | atom/cmis/cmis_service.php:730-733 | A URI template with one `{id}` gives the url with the id in its place. |
| Service.CheckUrl | atom/cmis/cmis_service.php:579-583 | No error exactly for a truthy url. Otherwise NotSupported with the function's name, or `UnspecifiedMethod` without one. |
| Service.StubError | atom/cmis/cmis_service.php:270-272 | A stub raises NotImplemented, no code, with a message naming that stub. |
| Service.StubNamesRoundTrip | atom/cmis/cmis_service.php:385-415 | Every stub's message names it back. |
| Service.StubErrorsDistinct | atom/cmis/cmis_service.php:1159-1178 | No two stubs raise the same exception. |
| Service.CreateDocumentFromSource | atom/cmis/cmis_service.php:896-898 | Always NotSupported with its fixed message. |
| Service.AppendValues | atom/cmis/cmis_service.php:660-664 | The inner loop appends every item's value element to the entry. |
| Service.RenderProperty | atom/cmis/cmis_service.php:658-668 | One property's block and the entry it leaves. |
| Service.Outcome | atom/cmis/cmis_service.php:973-979 | An operation without a result raises exactly when its request failed. |
| Service.StatusNeverNotAWorkingCopy | atom/cmis/cmis_service.php:1110-1122 | No server status yields the exception cancelCheckOut raises for a non-working copy. |
| Service.CmisService.constructor | atom/cmis/cmis_service.php:110-117 | A new session: the given workspace and options, empty caches, nothing sent. |
| Service.CmisService.DoRequest | atom/cmis/cmis_repository_wrapper.php:228-281 | Sends one request to the url with the connection options and takes the next answer; caches unchanged. |
| Service.CmisService.DoGet | atom/cmis/cmis_repository_wrapper.php:162-169 | One GET; the answer through the GET status check. |
| Service.CmisService.DoPost | atom/cmis/cmis_repository_wrapper.php:193-200 | One POST with the content and its type; the POST status check. |
| Service.CmisService.DoPut | atom/cmis/cmis_repository_wrapper.php:210-217 | One PUT with the content and its type; the PUT status check. |
| Service.CmisService.DoDelete | atom/cmis/cmis_repository_wrapper.php:176-183 | One DELETE; the DELETE status check. |
| Service.CmisService.CacheObjectInfo | atom/cmis/cmis_service.php:136-144 | The caches become `CacheObject` of the old ones; nothing is sent. |
| Service.CmisService.CacheFeedInfo | atom/cmis/cmis_service.php:170-174 | The loop caches every list slot in order. |
| Service.CmisService.CacheTypeInfo | atom/cmis/cmis_service.php:188-191 | The type cache gets the definition under its id. |
| Service.CmisService.CacheTypeFeedInfo | atom/cmis/cmis_service.php:179-183 | The loop caches every definition of the type feed in order. |
| Service.CmisService.GetObject | atom/cmis/cmis_service.php:730-738 | One GET of the filled objectbyid template. The extracted object is returned, and cached on success. |
| Service.CmisService.GetTypeDefinition | atom/cmis/cmis_service.php:347-355 | One GET of the filled typebyid template. The definition is returned, and cached on success. |
| Service.CmisService.GetLink | atom/cmis/cmis_service.php:255-261 | An id in the link cache is answered from it without a request ("" for a missing relation). Any other id fetches the object. |
| Service.CmisService.GetTitle | atom/cmis/cmis_service.php:227-233 | A truthy cached name is answered without a request; otherwise the object is fetched and its name returned. |
| Service.CmisService.GetObjectType | atom/cmis/cmis_service.php:214-220 | A truthy cached type id is answered without a request; otherwise the object is fetched. |
| Service.CmisService.GetTypeLink | atom/cmis/cmis_service.php:241-247 | A cached definition with links answers without a request; otherwise the definition is fetched. |
| Service.CmisService.GetPropertyType | atom/cmis/cmis_service.php:199-207 | A cached definition with property definitions answers without a request; otherwise it is fetched. |
| Service.CmisService.PropertyStepOf | atom/cmis/cmis_service.php:658-668 | One pass: the property's block with its type's tag and the entry the property leaves. With the type cached, no request. |
| Service.CmisService.PropertyPass | atom/cmis/cmis_service.php:657-669 | After pass i the content is the blocks of the first i+1 properties and the entry is as they leave it. |
| Service.CmisService.ProcessPropertyTemplates | atom/cmis/cmis_service.php:641-671 | One block per property, in array order. A failed type lookup ends it. With the type's definitions cached, no request is sent and the tags come from the cached definition. |
| Service.CmisService.SendEntry | atom/cmis/cmis_service.php:849-851 | Sends the entry, extracts the answer and caches it on success. |
| Service.CmisService.PostObject | atom/cmis/cmis_service.php:822-853 | A returned object is cached and came from a POST of the entry around property blocks of the properties with the type id added when unset. With the folder's links and the type's definitions cached: exactly one POST of the PostObjectBody entry to the folder's `down` link with the options, then extract and cache. |
| Service.CmisService.PostObjectTo | atom/cmis/cmis_service.php:826-853 | The rest of postObject once the url is known: a returned object came from a POST to that url. With the type's definitions cached, exactly that POST with the blocks the cached definition gives. |
| Service.CmisService.EntryTypeOf | atom/cmis/cmis_service.php:861-867 | The type from `cmis:objectTypeId`, else getObjectType of `cmis:objectId` (a request when not cached), else "". |
| Service.CmisService.PostEntry | atom/cmis/cmis_service.php:859-890 | A returned object came from a POST to the url with the options. When the type needs no request and its definitions are cached, the request is exactly the PostEntryBody entry. When the type needs a request, the first request is the object fetch. |
| Service.CmisService.PostEntryAs | atom/cmis/cmis_service.php:869-890 | The rest of postEntry once url and type are known. With the type's definitions cached, exactly one POST of the entry. |
| Service.CmisService.TitleAndType | atom/cmis/cmis_service.php:919-920 | getTitle then getObjectType; with both cached, no request. |
| Service.CmisService.UpdateProperties | atom/cmis/cmis_service.php:916-951 | With title, type, links and type definitions cached, exactly one PUT of the UpdateBody entry to the `edit` link with the options, then extract and cache. The change token never reaches the body. |
| Service.CmisService.UpdateTo | atom/cmis/cmis_service.php:924-951 | The rest of updateProperties once url, title and type are known. With the type's definitions cached, exactly one PUT of the entry. |
| Service.CmisService.CreateDocument | atom/cmis/cmis_service.php:892-894 | postObject of a `cmis:document`, with PostObject's contract. |
| Service.CmisService.CreateFolder | atom/cmis/cmis_service.php:900-902 | postObject of a `cmis:folder` without content, with PostObject's contract. |
| Service.CmisService.FileObject | atom/cmis/cmis_service.php:1136-1146 | A returned object is cached. With the object's name and type cached, postObject of just the object id into the target folder, with PostObject's contract. |
| Service.CmisService.MoveObject | atom/cmis/cmis_service.php:958-963 | As FileObject, with `sourceFolderId` added to the options. |
| Service.CmisService.Query | atom/cmis/cmis_service.php:557-572 | One POST of the query document to the `query` collection. The feed is returned, and cached on success. |
| Service.CmisService.GetContentChanges | atom/cmis/cmis_service.php:593-600 | Without a changes link: NotSupported and no request. Otherwise a GET of it; the feed is returned and cached. |
| Service.CmisService.LinkedRequest | atom/cmis/cmis_service.php:973-979 | getLink, then one request to it with the status check. |
| Service.CmisService.DeleteObject | atom/cmis/cmis_service.php:973-979 | DELETE to the `edit` link; the failure if any. |
| Service.CmisService.SetContentStream | atom/cmis/cmis_service.php:1012-1015 | PUT of the content to the `edit-media` link. |
| Service.CmisService.GetContentStream | atom/cmis/cmis_service.php:812-817 | The body of a GET of the `edit-media` link. |
| Service.CmisService.DeleteContentStream | atom/cmis/cmis_service.php:1041-1045 | DELETE to the `edit-media` link; the response. |
| Service.CmisService.CancelCheckOut | atom/cmis/cmis_service.php:1110-1122 | With links cached: an empty `via` link gives InvalidArgument and no request; otherwise one DELETE to the `edit` link. |

## Left out

- The HTTP transport (curl, TLS and authentication options, `connect`'s
  fetch of the service document) is a script of answers given to the
  session. The workspace is a constructor parameter. The last-request
  getters are not modelled.
- `loadXML`, `DOMXPath` and `importNode` are not modelled. A document is a tree
  given with each answer; a body that does not parse is an empty document.
- `http_build_query` does no percent-encoding in the model, and `urldecode` is
  the identity. `htmlentities` and `base64_encode` are function parameters of
  the session and are not interpreted.
- A missing attribute or map entry used as a string is read as "". PHP's
  null and "" are kept apart only for property values and cache slots,
  where truthiness decides.
- An array used where PHP expects a string reads as the text of the value.
  This covers a list-valued `cmis:name` passed by moveObject.
- postEntry reads an undefined `$objType` when the properties have neither
  `cmis:objectTypeId` nor `cmis:objectId`. It is modelled as "".
- TypeDef has no `children` field. The source's guard tests the misspelled
  variable `$childern_feed_l`, so that field is never set.
- getRenditions, deleteTree, checkOut, checkIn and removeObjectFromFolder
  are not modelled. Each calls something undefined, or extracts an already
  extracted object again, so its behaviour is a PHP error.
- The navigation and read wrappers are not modelled: getTypeDescendants,
  getTypeChildren, getFolderTree, getDescendants, getChildren,
  getFolderParent, getObjectParents, getCheckedOutDocs, getObjectByPath,
  getProperties, getAllowableActions, getObjectTypeDefinition,
  getRepositoryInfo, getObjectOfLatestVersion and
  getPropertiesOfLatestVersion. Each fills a link or URI template, makes one
  GET and extracts a feed or an object, which GetObject, Query and
  GetContentChanges already show.
- The Browser (JSON) binding and the integration tests are not part of this
  model.
- processTemplate's `{word}` blanking leaves no token only when every brace
  of the text opens one. NestedTokenSurvives shows a text where a token
  survives the single pass.
- Requests.PostObjectBody, Requests.PostEntryBody, Requests.UpdateBody and
  Requests.QueryBody state the exact body only for brace-free values and
  for option keys other than the template's own slots (`PROPERTIES`,
  `SUMMARY`, `CONTENT`). With braces in values, FillInOrder applies instead.
- Php.IntVal: a numeric string with an exponent is read through a float in
  PHP 7.1 and later (`(int)"1e3"` is 1000, `(int)"1.5e3"` is 1500). The
  model reads the leading decimal digits only (1 for `"1e3"`), as earlier
  PHP versions do, because it does not model floating point. The model is
  the strtol-based `(int)` of PHP 7.0 and earlier: it reads the leading
  digits and saturates at PHP_INT_MAX or PHP_INT_MIN, however long the
  numeral. PHP 7.1 and later differ in a second way: a numeral past the
  range of a double (about 1.8e308, such as `1` followed by 309 zeros)
  reads as infinity and then as 0, where the model gives PHP_INT_MAX.
- Php.IntValRoundTrip: the saturated branch (PHP_INT_MAX, or PHP_INT_MIN
  with a minus, for every count that does not fit) is the strtol-based cast
  of PHP 7.0 and earlier. PHP 7.1 and later give 0 instead once the numeral
  passes the range of a double.
- Objects.NumItemsOf: states the count only for a plain decimal numeral.
  It inherits both Php.IntVal differences from PHP 7.1 and later: a text
  with an exponent, and a numeral past the range of a double, which PHP
  7.1 and later read as 0 where the lemma states PHP_INT_MAX.
- Php.MergeGet: arrays are keyed by strings. PHP stores a decimal-integer
  key such as `"7"` as the int 7, and `array_merge` renumbers int keys
  of the second array. Option arrays with integer-like keys are outside
  the model. No template has a numeric placeholder, so no modelled body
  depends on them.
- CancelCheckOut: the contract covers only an object whose links are
  cached. StatusNeverNotAWorkingCopy covers the status side of the fetched
  case.
- The write methods below state the exact request only when nothing has to
  be fetched first. "Definitions cached" means the type's property
  definitions are in the type cache, so processPropertyTemplates sends no
  GET. Without it, the contracts say only this: a returned object is cached,
  and it answered a POST (or PUT) of the entry built around some property
  blocks of the properties, one block per property, for some property types.
- PostObject: the exact request (the folder's `down` link with the options
  appended, and the PostObjectBody entry) is stated only when the folder's
  links and the type's definitions are both cached. Without the folder's
  links the url of the POST is not stated.
- PostObjectTo: the exact POST is stated only when the type's definitions
  are cached.
- PostEntry: the exact request is stated only when the object type needs no
  request and that type's definitions are cached. When the type needs a
  request, the contract gives the first request sent (the object fetch).
- PostEntryAs: the exact POST is stated only when the type's definitions are
  cached.
- UpdateProperties: the exact request is stated only when title, type id,
  links and type definitions are all cached. Otherwise the contract says
  that a success sent some update entry.
- UpdateTo: the exact PUT is stated only when the type's definitions are
  cached.
- CreateDocument: the exact request is stated only when the folder's links
  and the definitions of `cmis:document` are cached.
- CreateFolder: the exact request is stated only when the folder's links
  and the definitions of `cmis:folder` are cached.
- FileObject: the exact request is stated only when the object's name and
  type id, the target folder's links and the type's definitions are all
  cached. Otherwise the contract says only that a returned object is cached.
- MoveObject: as FileObject. The exact request is stated only when the
  object's name and type id, the target folder's links and the type's
  definitions are all cached.
- DeleteObject, SetContentStream, GetContentStream, DeleteContentStream,
  CancelCheckOut: the `options` argument is accepted but unused, as in the
  source.
- The helper methods PropertyPass, PropertyStepOf, TitleAndType, EntryTypeOf,
  PostObjectTo, PostEntryAs, UpdateTo and SendEntry are parts of the source's
  method bodies. They are split out so that each proof stays small.
