/**
 * The request bodies the service writes with processTemplate: the property
 * blocks of processPropertyTemplates, the content block of getContentEntry,
 * the Atom entry of postObject, postEntry and updateProperties, and the
 * CMIS query document. Each template is written as its literal runs and
 * `{name}` placeholders; the reference texts next to them say what the
 * filled template reads.
 */
module Requests {
  import opened Wrappers
  import opened Php
  import opened Templates
  import opened Pieces
  import opened Links
  import opened PropertyValues

  // ---- the templates ----

  // Literal runs are cut at arbitrary points, sometimes mid-word; only their
  // concatenation matters, and short runs keep the brace-free proofs cheap.

  /** getPropertyTemplate. */
  const PROPERTY_PIECES: seq<Piece> := [
    Lit("\n\t\t<cmis:property"), Hole("propertyType"), Lit(" propertyDefinitionId=\""),
    Hole("propertyId"), Lit("\">\n\t\t\t<cmis:value>"), Hole("properties"), Lit("</cmis:value>\n\t\t</cmis:property"),
    Hole("propertyType"), Lit(">\n\t\t")]

  /** getContentTemplate. */
  const CONTENT_PIECES: seq<Piece> := [
    Lit("\n\t\t<cmisra:content>\n"), Lit("\t\t\t<cmisra:mediatype>\n\t\t\t\t"),
    Hole("content_type"), Lit("\n\t\t\t</cmisra:mediatype>\n"), Lit("\t\t\t<cmisra:base64>\n\t\t\t\t"),
    Hole("content"), Lit("\n\t\t\t</cmisra:base64>\n"), Lit("\t\t</cmisra:content>\n\t\t")]

  /** getSummaryTemplate. */
  const SUMMARY_PIECES: seq<Piece> := [
    Lit("<atom:summary>"), Hole("summary"), Lit("</atom:summary>")]

  /** The XML declaration both documents start with. */
  const XML_DECLARATION: seq<Piece> := [
    Lit("<?xml version=\"1.0\" encoding"), Lit("=\"UTF-8\" standalone=\"yes\"?>\n")]

  /**
   * The namespace declarations both root elements carry, from the cmis URI
   * after its scheme up to the cmisra URI's scheme.
   */
  const NAMESPACES: seq<Piece> := [
    Lit("://docs.oasis-open.org/ns/cm"), Lit("is/core/200908/\"\n"), Lit("            xmlns:cmism=\"htt"),
    Lit("p://docs.oasis-open.org/ns/c"), Lit("mis/messaging/200908/\"\n"), Lit("            xmlns:atom=\"http"),
    Lit("://www.w3.org/2005/Atom\"\n"), Lit("            xmlns:app=\"http:"),
    Lit("//www.w3.org/2007/app\"\n"), Lit("            xmlns:cmisra=\"ht")]

  const ENTRY_START: seq<Piece> := [
    Lit("<atom:entry xmlns:cmis=\"http")]

  const ENTRY_RESTATOM: seq<Piece> := [
    Lit("tp://docs.oasis-open.org/ns/"), Lit("cmis/restatom/200908/\">\n"), Lit("    <atom:title>")]

  const ENTRY_SLOT_PIECES: seq<Piece> := [
    Hole("title"), Lit("</atom:title>\n    "), Hole("SUMMARY"), Lit("\n    "),
    Hole("CONTENT"), Lit("\n    <cmisra:object>")]

  const ENTRY_OBJECT_PIECES: seq<Piece> := [
    Lit("<cmis:properties>"), Hole("PROPERTIES"), Lit("</cmis:properties>"),
    Lit("</cmisra:object>\n"), Lit("</atom:entry>")]

  /**
   * The query's root element declares the restatom namespace as
   * `docs.oasisopen.org`, without the hyphen; no element of the query uses
   * that prefix.
   */
  const QUERY_START: seq<Piece> := [
    Lit("<cmis:query xmlns:cmis=\"http")]

  const QUERY_RESTATOM: seq<Piece> := [
    Lit("tp://docs.oasisopen.org/ns/c"), Lit("mis/restatom/200908/\">\n"), Lit("    <cmis:statement><![CDATA[")]

  const QUERY_STATEMENT_PIECES: seq<Piece> := [
    Hole("q"), Lit("]]></cmis:statement>\n")]

  const QUERY_FLAG_PIECES: seq<Piece> := [
    Lit("    <cmis:searchAllVersions>"), Hole("searchAllVersions"), Lit("</cmis:searchAllVersions>\n"),
    Lit("    <cmis:includeAllowable"), Lit("Actions>"), Hole("includeAllowableActions"),
    Lit("</cmis:includeAllowable"), Lit("Actions>\n")]

  const QUERY_FILTER_PIECES: seq<Piece> := [
    Lit("    <cmis:includeRelationships>"), Hole("includeRelationships"), Lit("</cmis:includeRelationships>\n"),
    Lit("    <cmis:renditionFilter>"), Hole("renditionFilter"), Lit("</cmis:renditionFilter>\n")]

  const QUERY_PAGING_PIECES: seq<Piece> := [
    Lit("    <cmis:maxItems>"), Hole("maxItems"), Lit("</cmis:maxItems>\n"),
    Lit("    <cmis:skipCount>"), Hole("skipCount"), Lit("</cmis:skipCount>\n"),
    Lit("</cmis:query>")]

  /** getEntryTemplate: the prolog up to `<atom:title>`, then the slots. */
  const ENTRY_PROLOG: seq<Piece> := XML_DECLARATION + ENTRY_START + NAMESPACES + ENTRY_RESTATOM
  const ENTRY_BODY_PIECES: seq<Piece> := ENTRY_SLOT_PIECES + ENTRY_OBJECT_PIECES
  const ENTRY_PIECES: seq<Piece> := ENTRY_PROLOG + ENTRY_BODY_PIECES

  /** getQueryTemplate: the prolog up to the statement's CDATA section, then the slots. */
  const QUERY_PROLOG: seq<Piece> := XML_DECLARATION + QUERY_START + NAMESPACES + QUERY_RESTATOM
  const QUERY_BODY_PIECES: seq<Piece> :=
    QUERY_STATEMENT_PIECES + (QUERY_FLAG_PIECES + (QUERY_FILTER_PIECES + QUERY_PAGING_PIECES))
  const QUERY_PIECES: seq<Piece> := QUERY_PROLOG + QUERY_BODY_PIECES

  const PROPERTY_TEMPLATE := Join(PROPERTY_PIECES)
  const CONTENT_TEMPLATE := Join(CONTENT_PIECES)
  const SUMMARY_TEMPLATE := Join(SUMMARY_PIECES)
  const ENTRY_TEMPLATE := Join(ENTRY_PIECES)
  const QUERY_TEMPLATE := Join(QUERY_PIECES)

  // ---- what the filled templates read ----

  /** One property element: its type tag in both tag names, its id, and its value text. */
  function PropertyBlock(tag: string, id: string, value: string): string {
    "\n\t\t<cmis:property" + (tag + (" propertyDefinitionId=\"" + (id + (
    "\">\n\t\t\t<cmis:value>" + (value + ("</cmis:value>\n\t\t</cmis:property" + (
    tag + ">\n\t\t")))))))
  }

  /** The content element: the media type and the encoded data. */
  function ContentBlock(mediaType: string, data: string): string {
    "\n\t\t<cmisra:content>\n" + ("\t\t\t<cmisra:mediatype>\n\t\t\t\t" + (mediaType + (
    "\n\t\t\t</cmisra:mediatype>\n" + ("\t\t\t<cmisra:base64>\n\t\t\t\t" + (data + (
    "\n\t\t\t</cmisra:base64>\n" + "\t\t</cmisra:content>\n\t\t"))))))
  }

  /** The atom:summary element around a text. */
  function SummaryElement(summary: string): string {
    "<atom:summary>" + (summary + "</atom:summary>")
  }

  /** The title, summary and content slots of an entry, up to the object element. */
  function EntrySlots(title: string, summary: string, content: string): string {
    title + ("</atom:title>\n    " + (summary + ("\n    " + (
    content + "\n    <cmisra:object>"))))
  }

  /** The object element around the property blocks, and the end of the entry. */
  function EntryObject(properties: string): string {
    "<cmis:properties>" + (properties + ("</cmis:properties>" + (
    "</cmisra:object>\n" + "</atom:entry>")))
  }

  /** The statement, inside the CDATA section the prolog opens. */
  function QueryStatement(statement: string): string {
    statement + "]]></cmis:statement>\n"
  }

  /** The two boolean flags of a query. */
  function QueryFlags(searchAllVersions: string, includeAllowableActions: string): string {
    "    <cmis:searchAllVersions>" + (searchAllVersions + ("</cmis:searchAllVersions>\n" + (
    "    <cmis:includeAllowable" + ("Actions>" + (includeAllowableActions + (
    "</cmis:includeAllowable" + "Actions>\n"))))))
  }

  /** The relationship and rendition filters of a query. */
  function QueryFilters(includeRelationships: string, renditionFilter: string): string {
    "    <cmis:includeRelationships>" + (includeRelationships + (
    "</cmis:includeRelationships>\n" + ("    <cmis:renditionFilter>" + (
    renditionFilter + "</cmis:renditionFilter>\n"))))
  }

  /** The paging elements of a query, and the end tag. */
  function QueryPaging(maxItems: string, skipCount: string): string {
    "    <cmis:maxItems>" + (maxItems + ("</cmis:maxItems>\n" + ("    <cmis:skipCount>" + (
    skipCount + ("</cmis:skipCount>\n" + "</cmis:query>")))))
  }

  /** A whole Atom entry with its four slots filled. */
  function EntryBody(title: string, summary: string, content: string, properties: string): string {
    Join(ENTRY_PROLOG) + (EntrySlots(title, summary, content) + EntryObject(properties))
  }

  /** A whole query document. */
  function QueryDocument(statement: string, searchAllVersions: string, includeAllowableActions: string,
                         includeRelationships: string, renditionFilter: string, maxItems: string,
                         skipCount: string): string
  {
    Join(QUERY_PROLOG)
    + (QueryStatement(statement)
       + (QueryFlags(searchAllVersions, includeAllowableActions)
          + (QueryFilters(includeRelationships, renditionFilter) + QueryPaging(maxItems, skipCount))))
  }

  // ---- the templates are well formed ----

  // The literal runs of the templates above are split only to keep each
  // run short. The RunsN lemmas state that the runs hold no brace, a few
  // runs at a time, so that each WellFormed proof below unrolls only the
  // literals it needs and stays within the solver's resource budget.

  lemma Runs1()
    ensures NoBrace("\n\t\t<cmis:property")
         && NoBrace(" propertyDefinitionId=\"")
         && NoBrace("\">\n\t\t\t<cmis:value>")
  {
  }

  lemma Runs2()
    ensures NoBrace("</cmis:value>\n\t\t</cmis:property")
         && NoBrace(">\n\t\t")
         && NoBrace("\n\t\t<cmisra:content>\n")
  {
  }

  lemma Runs3()
    ensures NoBrace("\t\t\t<cmisra:mediatype>\n\t\t\t\t")
         && NoBrace("\n\t\t\t</cmisra:mediatype>\n")
         && NoBrace("\t\t\t<cmisra:base64>\n\t\t\t\t")
  {
  }

  lemma Runs4()
    ensures NoBrace("\n\t\t\t</cmisra:base64>\n")
         && NoBrace("\t\t</cmisra:content>\n\t\t")
         && NoBrace("<atom:summary>")
  {
  }

  lemma Runs5()
    ensures NoBrace("</atom:summary>")
         && NoBrace("<?xml version=\"1.0\" encoding")
         && NoBrace("=\"UTF-8\" standalone=\"yes\"?>\n")
  {
  }

  lemma Runs6()
    ensures NoBrace("://docs.oasis-open.org/ns/cm")
         && NoBrace("is/core/200908/\"\n")
         && NoBrace("            xmlns:cmism=\"htt")
  {
  }

  lemma Runs7()
    ensures NoBrace("p://docs.oasis-open.org/ns/c")
         && NoBrace("mis/messaging/200908/\"\n")
         && NoBrace("            xmlns:atom=\"http")
  {
  }

  lemma Runs8()
    ensures NoBrace("://www.w3.org/2005/Atom\"\n")
         && NoBrace("            xmlns:app=\"http:")
         && NoBrace("//www.w3.org/2007/app\"\n")
  {
  }

  lemma Runs9()
    ensures NoBrace("            xmlns:cmisra=\"ht")
         && NoBrace("<atom:entry xmlns:cmis=\"http")
  {
  }

  lemma Runs10()
    ensures NoBrace("tp://docs.oasis-open.org/ns/")
         && NoBrace("cmis/restatom/200908/\">\n")
         && NoBrace("    <atom:title>")
  {
  }

  lemma Runs11()
    ensures NoBrace("</atom:title>\n    ")
         && NoBrace("\n    ")
         && NoBrace("\n    <cmisra:object>")
  {
  }

  lemma Runs12()
    ensures NoBrace("<cmis:properties>")
         && NoBrace("</cmis:properties>")
         && NoBrace("</cmisra:object>\n")
  {
  }

  lemma Runs13()
    ensures NoBrace("</atom:entry>")
         && NoBrace("<cmis:query xmlns:cmis=\"http")
         && NoBrace("tp://docs.oasisopen.org/ns/c")
  {
  }

  lemma Runs14()
    ensures NoBrace("mis/restatom/200908/\">\n")
         && NoBrace("    <cmis:statement><![CDATA[")
         && NoBrace("]]></cmis:statement>\n")
  {
  }

  lemma Runs15()
    ensures NoBrace("    <cmis:searchAllVersions>")
         && NoBrace("</cmis:searchAllVersions>\n")
         && NoBrace("    <cmis:includeAllowable")
  {
  }

  lemma Runs16()
    ensures NoBrace("Actions>")
         && NoBrace("</cmis:includeAllowable")
         && NoBrace("Actions>\n")
  {
  }

  lemma Runs17()
    ensures NoBrace("    <cmis:includeRelationships>")
         && NoBrace("</cmis:includeRelationships>\n")
  {
  }

  lemma Runs18()
    ensures NoBrace("    <cmis:renditionFilter>")
         && NoBrace("</cmis:renditionFilter>\n")
         && NoBrace("    <cmis:maxItems>")
  {
  }

  lemma Runs19()
    ensures NoBrace("</cmis:maxItems>\n")
         && NoBrace("    <cmis:skipCount>")
         && NoBrace("</cmis:skipCount>\n")
  {
  }

  lemma Runs20()
    ensures NoBrace("</cmis:query>")
  {
  }

  // The NamesN lemmas state, for the same reason, that the placeholder
  // names are words, a few names at a time.

  lemma Names1()
    ensures IsWord("propertyType") && IsWord("propertyId") && IsWord("properties")
  {
  }

  lemma Names2()
    ensures IsWord("content_type") && IsWord("content") && IsWord("summary")
  {
  }

  lemma Names3()
    ensures IsWord("title") && IsWord("SUMMARY") && IsWord("CONTENT")
  {
  }

  lemma Names4()
    ensures IsWord("PROPERTIES") && IsWord("q") && IsWord("searchAllVersions")
  {
  }

  lemma Names5()
    ensures IsWord("includeAllowableActions") && IsWord("includeRelationships")
  {
  }

  lemma Names6()
    ensures IsWord("renditionFilter") && IsWord("maxItems") && IsWord("skipCount")
  {
  }

  lemma PropertyWellFormed()
    ensures WellFormed(PROPERTY_PIECES)
  {
    Runs1(); Names1(); Runs2();
    var ps := PROPERTY_PIECES;
    forall i | 0 <= i < |ps| ensures (ps[i].Lit? ==> NoBrace(ps[i].text)) && (ps[i].Hole? ==> IsWord(ps[i].name)) {
      if i == 0 {} else if i == 1 {} else if i == 2 {} else if i == 3 {} else if i == 4 {}
      else if i == 5 {} else if i == 6 {} else if i == 7 {} else {}
    }
  }

  lemma ContentWellFormed()
    ensures WellFormed(CONTENT_PIECES)
  {
    Runs2(); Runs3(); Names2(); Runs4();
    var ps := CONTENT_PIECES;
    forall i | 0 <= i < |ps| ensures (ps[i].Lit? ==> NoBrace(ps[i].text)) && (ps[i].Hole? ==> IsWord(ps[i].name)) {
      if i == 0 {} else if i == 1 {} else if i == 2 {} else if i == 3 {} else if i == 4 {}
      else if i == 5 {} else if i == 6 {} else {}
    }
  }

  lemma SummaryWellFormed()
    ensures WellFormed(SUMMARY_PIECES)
  {
    Runs4(); Names2(); Runs5();
    var ps := SUMMARY_PIECES;
    forall i | 0 <= i < |ps| ensures (ps[i].Lit? ==> NoBrace(ps[i].text)) && (ps[i].Hole? ==> IsWord(ps[i].name)) {
      if i == 0 {} else if i == 1 {} else {}
    }
  }

  lemma DeclarationWellFormed()
    ensures WellFormed(XML_DECLARATION)
    ensures forall i :: 0 <= i < |XML_DECLARATION| ==> XML_DECLARATION[i].Lit?
  {
    Runs5();
    var ps := XML_DECLARATION;
    forall i | 0 <= i < |ps| ensures ps[i].Lit? && NoBrace(ps[i].text) {
      if i == 0 {} else {}
    }
  }

  lemma NamespacesWellFormed()
    ensures WellFormed(NAMESPACES)
    ensures forall i :: 0 <= i < |NAMESPACES| ==> NAMESPACES[i].Lit?
  {
    Runs6(); Runs7(); Runs8(); Runs9();
    var ps := NAMESPACES;
    forall i | 0 <= i < |ps| ensures ps[i].Lit? && NoBrace(ps[i].text) {
      if i == 0 {} else if i == 1 {} else if i == 2 {} else if i == 3 {} else if i == 4 {}
      else if i == 5 {} else if i == 6 {} else if i == 7 {} else if i == 8 {} else {}
    }
  }

  lemma EntryStartWellFormed()
    ensures WellFormed(ENTRY_START)
    ensures forall i :: 0 <= i < |ENTRY_START| ==> ENTRY_START[i].Lit?
  {
    Runs9();
    var ps := ENTRY_START;
    forall i | 0 <= i < |ps| ensures ps[i].Lit? && NoBrace(ps[i].text) {
    }
  }

  lemma EntryRestatomWellFormed()
    ensures WellFormed(ENTRY_RESTATOM)
    ensures forall i :: 0 <= i < |ENTRY_RESTATOM| ==> ENTRY_RESTATOM[i].Lit?
  {
    Runs10();
    var ps := ENTRY_RESTATOM;
    forall i | 0 <= i < |ps| ensures ps[i].Lit? && NoBrace(ps[i].text) {
      if i == 0 {} else if i == 1 {} else {}
    }
  }

  lemma EntrySlotsWellFormed()
    ensures WellFormed(ENTRY_SLOT_PIECES)
  {
    Names3(); Runs11();
    var ps := ENTRY_SLOT_PIECES;
    forall i | 0 <= i < |ps| ensures (ps[i].Lit? ==> NoBrace(ps[i].text)) && (ps[i].Hole? ==> IsWord(ps[i].name)) {
      if i == 0 {} else if i == 1 {} else if i == 2 {} else if i == 3 {} else if i == 4 {}
      else {}
    }
  }

  lemma EntryObjectWellFormed()
    ensures WellFormed(ENTRY_OBJECT_PIECES)
  {
    Runs12(); Names4(); Runs13();
    var ps := ENTRY_OBJECT_PIECES;
    forall i | 0 <= i < |ps| ensures (ps[i].Lit? ==> NoBrace(ps[i].text)) && (ps[i].Hole? ==> IsWord(ps[i].name)) {
      if i == 0 {} else if i == 1 {} else if i == 2 {} else if i == 3 {} else {}
    }
  }

  lemma QueryStartWellFormed()
    ensures WellFormed(QUERY_START)
    ensures forall i :: 0 <= i < |QUERY_START| ==> QUERY_START[i].Lit?
  {
    Runs13();
    var ps := QUERY_START;
    forall i | 0 <= i < |ps| ensures ps[i].Lit? && NoBrace(ps[i].text) {
    }
  }

  lemma QueryRestatomWellFormed()
    ensures WellFormed(QUERY_RESTATOM)
    ensures forall i :: 0 <= i < |QUERY_RESTATOM| ==> QUERY_RESTATOM[i].Lit?
  {
    Runs13(); Runs14();
    var ps := QUERY_RESTATOM;
    forall i | 0 <= i < |ps| ensures ps[i].Lit? && NoBrace(ps[i].text) {
      if i == 0 {} else if i == 1 {} else {}
    }
  }

  lemma QueryStatementWellFormed()
    ensures WellFormed(QUERY_STATEMENT_PIECES)
  {
    Names4(); Runs14();
    var ps := QUERY_STATEMENT_PIECES;
    forall i | 0 <= i < |ps| ensures (ps[i].Lit? ==> NoBrace(ps[i].text)) && (ps[i].Hole? ==> IsWord(ps[i].name)) {
      if i == 0 {} else {}
    }
  }

  lemma QueryFlagsWellFormed()
    ensures WellFormed(QUERY_FLAG_PIECES)
  {
    Runs15(); Names4(); Runs16(); Names5();
    var ps := QUERY_FLAG_PIECES;
    forall i | 0 <= i < |ps| ensures (ps[i].Lit? ==> NoBrace(ps[i].text)) && (ps[i].Hole? ==> IsWord(ps[i].name)) {
      if i == 0 {} else if i == 1 {} else if i == 2 {} else if i == 3 {} else if i == 4 {}
      else if i == 5 {} else if i == 6 {} else {}
    }
  }

  lemma QueryFiltersWellFormed()
    ensures WellFormed(QUERY_FILTER_PIECES)
  {
    Runs17(); Names5(); Runs18(); Names6();
    var ps := QUERY_FILTER_PIECES;
    forall i | 0 <= i < |ps| ensures (ps[i].Lit? ==> NoBrace(ps[i].text)) && (ps[i].Hole? ==> IsWord(ps[i].name)) {
      if i == 0 {} else if i == 1 {} else if i == 2 {} else if i == 3 {} else if i == 4 {}
      else {}
    }
  }

  lemma QueryPagingWellFormed()
    ensures WellFormed(QUERY_PAGING_PIECES)
  {
    Runs18(); Names6(); Runs19(); Runs20();
    var ps := QUERY_PAGING_PIECES;
    forall i | 0 <= i < |ps| ensures (ps[i].Lit? ==> NoBrace(ps[i].text)) && (ps[i].Hole? ==> IsWord(ps[i].name)) {
      if i == 0 {} else if i == 1 {} else if i == 2 {} else if i == 3 {} else if i == 4 {}
      else if i == 5 {} else {}
    }
  }

  lemma EntryWellFormed()
    ensures WellFormed(ENTRY_PIECES)
    ensures forall i :: 0 <= i < |ENTRY_PROLOG| ==> ENTRY_PROLOG[i].Lit?
  {
    DeclarationWellFormed(); EntryStartWellFormed(); NamespacesWellFormed(); EntryRestatomWellFormed();
    EntrySlotsWellFormed(); EntryObjectWellFormed();
    WellFormedAppend(ENTRY_SLOT_PIECES, ENTRY_OBJECT_PIECES);
    WellFormedAppend(XML_DECLARATION, ENTRY_START);
    WellFormedAppend(XML_DECLARATION + ENTRY_START, NAMESPACES);
    WellFormedAppend(XML_DECLARATION + ENTRY_START + NAMESPACES, ENTRY_RESTATOM);
    WellFormedAppend(ENTRY_PROLOG, ENTRY_BODY_PIECES);
  }

  lemma QueryWellFormed()
    ensures WellFormed(QUERY_PIECES)
    ensures forall i :: 0 <= i < |QUERY_PROLOG| ==> QUERY_PROLOG[i].Lit?
  {
    DeclarationWellFormed(); QueryStartWellFormed(); NamespacesWellFormed(); QueryRestatomWellFormed();
    QueryStatementWellFormed(); QueryFlagsWellFormed(); QueryFiltersWellFormed(); QueryPagingWellFormed();
    WellFormedAppend(QUERY_FILTER_PIECES, QUERY_PAGING_PIECES);
    WellFormedAppend(QUERY_FLAG_PIECES, QUERY_FILTER_PIECES + QUERY_PAGING_PIECES);
    WellFormedAppend(QUERY_STATEMENT_PIECES, QUERY_FLAG_PIECES + (QUERY_FILTER_PIECES + QUERY_PAGING_PIECES));
    WellFormedAppend(XML_DECLARATION, QUERY_START);
    WellFormedAppend(XML_DECLARATION + QUERY_START, NAMESPACES);
    WellFormedAppend(XML_DECLARATION + QUERY_START + NAMESPACES, QUERY_RESTATOM);
    WellFormedAppend(QUERY_PROLOG, QUERY_BODY_PIECES);
  }

  // ---- instances of the plain templates ----

  lemma InstantiateProperty(h: seq<(string, string)>)
    ensures Instantiate(PROPERTY_PIECES, h) ==
            PropertyBlock(Get(h, "propertyType", ""), Get(h, "propertyId", ""), Get(h, "properties", ""))
  {
    assert Instantiate(PROPERTY_PIECES[8..], h) == ">\n\t\t";
    assert Instantiate(PROPERTY_PIECES[7..], h) == Get(h, "propertyType", "") + Instantiate(PROPERTY_PIECES[8..], h);
    assert Instantiate(PROPERTY_PIECES[6..], h) == PROPERTY_PIECES[6].text + Instantiate(PROPERTY_PIECES[7..], h);
    assert Instantiate(PROPERTY_PIECES[5..], h) == Get(h, "properties", "") + Instantiate(PROPERTY_PIECES[6..], h);
    assert Instantiate(PROPERTY_PIECES[4..], h) == PROPERTY_PIECES[4].text + Instantiate(PROPERTY_PIECES[5..], h);
    assert Instantiate(PROPERTY_PIECES[3..], h) == Get(h, "propertyId", "") + Instantiate(PROPERTY_PIECES[4..], h);
    assert Instantiate(PROPERTY_PIECES[2..], h) == PROPERTY_PIECES[2].text + Instantiate(PROPERTY_PIECES[3..], h);
    assert Instantiate(PROPERTY_PIECES[1..], h) == Get(h, "propertyType", "") + Instantiate(PROPERTY_PIECES[2..], h);
  }

  lemma InstantiateContent(h: seq<(string, string)>)
    ensures Instantiate(CONTENT_PIECES, h) ==
            ContentBlock(Get(h, "content_type", ""), Get(h, "content", ""))
  {
    assert Instantiate(CONTENT_PIECES[7..], h) == "\t\t</cmisra:content>\n\t\t";
    assert Instantiate(CONTENT_PIECES[6..], h) == CONTENT_PIECES[6].text + Instantiate(CONTENT_PIECES[7..], h);
    assert Instantiate(CONTENT_PIECES[5..], h) == Get(h, "content", "") + Instantiate(CONTENT_PIECES[6..], h);
    assert Instantiate(CONTENT_PIECES[4..], h) == CONTENT_PIECES[4].text + Instantiate(CONTENT_PIECES[5..], h);
    assert Instantiate(CONTENT_PIECES[3..], h) == CONTENT_PIECES[3].text + Instantiate(CONTENT_PIECES[4..], h);
    assert Instantiate(CONTENT_PIECES[2..], h) == Get(h, "content_type", "") + Instantiate(CONTENT_PIECES[3..], h);
    assert Instantiate(CONTENT_PIECES[1..], h) == CONTENT_PIECES[1].text + Instantiate(CONTENT_PIECES[2..], h);
  }

  lemma InstantiateSummary(h: seq<(string, string)>)
    ensures Instantiate(SUMMARY_PIECES, h) ==
            SummaryElement(Get(h, "summary", ""))
  {
    assert Instantiate(SUMMARY_PIECES[2..], h) == "</atom:summary>";
    assert Instantiate(SUMMARY_PIECES[1..], h) == Get(h, "summary", "") + Instantiate(SUMMARY_PIECES[2..], h);
  }

  lemma InstantiateSlots(h: seq<(string, string)>)
    ensures Instantiate(ENTRY_SLOT_PIECES, h) ==
            EntrySlots(Get(h, "title", ""), Get(h, "SUMMARY", ""), Get(h, "CONTENT", ""))
  {
    assert Instantiate(ENTRY_SLOT_PIECES[5..], h) == "\n    <cmisra:object>";
    assert Instantiate(ENTRY_SLOT_PIECES[4..], h) == Get(h, "CONTENT", "") + Instantiate(ENTRY_SLOT_PIECES[5..], h);
    assert Instantiate(ENTRY_SLOT_PIECES[3..], h) == ENTRY_SLOT_PIECES[3].text + Instantiate(ENTRY_SLOT_PIECES[4..], h);
    assert Instantiate(ENTRY_SLOT_PIECES[2..], h) == Get(h, "SUMMARY", "") + Instantiate(ENTRY_SLOT_PIECES[3..], h);
    assert Instantiate(ENTRY_SLOT_PIECES[1..], h) == ENTRY_SLOT_PIECES[1].text + Instantiate(ENTRY_SLOT_PIECES[2..], h);
  }

  lemma InstantiateObject(h: seq<(string, string)>)
    ensures Instantiate(ENTRY_OBJECT_PIECES, h) ==
            EntryObject(Get(h, "PROPERTIES", ""))
  {
    assert Instantiate(ENTRY_OBJECT_PIECES[4..], h) == "</atom:entry>";
    assert Instantiate(ENTRY_OBJECT_PIECES[3..], h) == ENTRY_OBJECT_PIECES[3].text + Instantiate(ENTRY_OBJECT_PIECES[4..], h);
    assert Instantiate(ENTRY_OBJECT_PIECES[2..], h) == ENTRY_OBJECT_PIECES[2].text + Instantiate(ENTRY_OBJECT_PIECES[3..], h);
    assert Instantiate(ENTRY_OBJECT_PIECES[1..], h) == Get(h, "PROPERTIES", "") + Instantiate(ENTRY_OBJECT_PIECES[2..], h);
  }

  lemma InstantiateStatement(h: seq<(string, string)>)
    ensures Instantiate(QUERY_STATEMENT_PIECES, h) ==
            QueryStatement(Get(h, "q", ""))
  {
    assert Instantiate(QUERY_STATEMENT_PIECES[1..], h) == "]]></cmis:statement>\n";
  }

  lemma InstantiateFlags(h: seq<(string, string)>)
    ensures Instantiate(QUERY_FLAG_PIECES, h) ==
            QueryFlags(Get(h, "searchAllVersions", ""), Get(h, "includeAllowableActions", ""))
  {
    assert Instantiate(QUERY_FLAG_PIECES[7..], h) == "Actions>\n";
    assert Instantiate(QUERY_FLAG_PIECES[6..], h) == QUERY_FLAG_PIECES[6].text + Instantiate(QUERY_FLAG_PIECES[7..], h);
    assert Instantiate(QUERY_FLAG_PIECES[5..], h) == Get(h, "includeAllowableActions", "") + Instantiate(QUERY_FLAG_PIECES[6..], h);
    assert Instantiate(QUERY_FLAG_PIECES[4..], h) == QUERY_FLAG_PIECES[4].text + Instantiate(QUERY_FLAG_PIECES[5..], h);
    assert Instantiate(QUERY_FLAG_PIECES[3..], h) == QUERY_FLAG_PIECES[3].text + Instantiate(QUERY_FLAG_PIECES[4..], h);
    assert Instantiate(QUERY_FLAG_PIECES[2..], h) == QUERY_FLAG_PIECES[2].text + Instantiate(QUERY_FLAG_PIECES[3..], h);
    assert Instantiate(QUERY_FLAG_PIECES[1..], h) == Get(h, "searchAllVersions", "") + Instantiate(QUERY_FLAG_PIECES[2..], h);
  }

  lemma InstantiateFilters(h: seq<(string, string)>)
    ensures Instantiate(QUERY_FILTER_PIECES, h) ==
            QueryFilters(Get(h, "includeRelationships", ""), Get(h, "renditionFilter", ""))
  {
    assert Instantiate(QUERY_FILTER_PIECES[5..], h) == "</cmis:renditionFilter>\n";
    assert Instantiate(QUERY_FILTER_PIECES[4..], h) == Get(h, "renditionFilter", "") + Instantiate(QUERY_FILTER_PIECES[5..], h);
    assert Instantiate(QUERY_FILTER_PIECES[3..], h) == QUERY_FILTER_PIECES[3].text + Instantiate(QUERY_FILTER_PIECES[4..], h);
    assert Instantiate(QUERY_FILTER_PIECES[2..], h) == QUERY_FILTER_PIECES[2].text + Instantiate(QUERY_FILTER_PIECES[3..], h);
    assert Instantiate(QUERY_FILTER_PIECES[1..], h) == Get(h, "includeRelationships", "") + Instantiate(QUERY_FILTER_PIECES[2..], h);
  }

  lemma InstantiatePaging(h: seq<(string, string)>)
    ensures Instantiate(QUERY_PAGING_PIECES, h) ==
            QueryPaging(Get(h, "maxItems", ""), Get(h, "skipCount", ""))
  {
    assert Instantiate(QUERY_PAGING_PIECES[6..], h) == "</cmis:query>";
    assert Instantiate(QUERY_PAGING_PIECES[5..], h) == QUERY_PAGING_PIECES[5].text + Instantiate(QUERY_PAGING_PIECES[6..], h);
    assert Instantiate(QUERY_PAGING_PIECES[4..], h) == Get(h, "skipCount", "") + Instantiate(QUERY_PAGING_PIECES[5..], h);
    assert Instantiate(QUERY_PAGING_PIECES[3..], h) == QUERY_PAGING_PIECES[3].text + Instantiate(QUERY_PAGING_PIECES[4..], h);
    assert Instantiate(QUERY_PAGING_PIECES[2..], h) == QUERY_PAGING_PIECES[2].text + Instantiate(QUERY_PAGING_PIECES[3..], h);
    assert Instantiate(QUERY_PAGING_PIECES[1..], h) == Get(h, "maxItems", "") + Instantiate(QUERY_PAGING_PIECES[2..], h);
  }

  /** The values processTemplate gets for one property, in the order the loop first sets them. */
  function BlockValues(tag: string, id: string, slot: Option<string>): (h: PhpArray<string>)
    ensures Get(h, "propertyType", "") == tag && Get(h, "propertyId", "") == id
    ensures Get(h, "properties", "") == if slot.Some? then slot.value else ""
  {
    var h := [("propertyType", tag), ("propertyId", id)];
    var r := if slot.Some? then h + [("properties", slot.value)] else h;
    FindUnique(r, "propertyType", 0);
    FindUnique(r, "propertyId", 1);
    if slot.Some? then
      FindUnique(r, "properties", 2);
      r
    else
      assert r[0].0 != "properties" && r[1].0 != "properties";
      r
  }

  /** processTemplate(getPropertyTemplate(), $hash_values) for one property. */
  function Block(tag: string, id: string, slot: Option<string>): string {
    Fill(PROPERTY_TEMPLATE, BlockValues(tag, id, slot))
  }

  /** With brace-free values, a property block is the property element with those values. */
  lemma BlockText(tag: string, id: string, slot: Option<string>)
    requires NoBrace(tag) && NoBrace(id) && (slot.Some? ==> NoBrace(slot.value))
    ensures Block(tag, id, slot) == PropertyBlock(tag, id, if slot.Some? then slot.value else "")
  {
    var h := BlockValues(tag, id, slot);
    Names1();
    WordNoBrace("propertyType"); WordNoBrace("propertyId"); WordNoBrace("properties");
    assert PlainValues(h, map[]);
    PropertyWellFormed();
    FillPlain(PROPERTY_PIECES, h);
    InstantiateProperty(h);
  }

  /**
   * processPropertyTemplates: one block per property, in the array's order,
   * each with the type tag of its property type and the `properties` entry
   * as the loop has left it.
   */
  function PropertiesXml(types: seq<string>, props: seq<(string, Value)>): string
    requires |types| == |props|
    decreases |props|
  {
    if props == [] then ""
    else
      var n := |props| - 1;
      PropertiesXml(types[..n], props[..n]) + Block(TypeTag(types[n]), props[n].0, SlotAfter(Values(props)))
  }

  /** One more property adds one block, built from the `properties` entry as that property leaves it. */
  lemma PropertiesXmlSnoc(types: seq<string>, props: seq<(string, Value)>, t: string, p: (string, Value))
    requires |types| == |props|
    ensures PropertiesXml(types + [t], props + [p])
            == PropertiesXml(types, props) + Block(TypeTag(t), p.0, NextSlot(SlotAfter(Values(props)), p.1))
  {
    assert (types + [t])[..|props|] == types;
    assert (props + [p])[..|props|] == props;
    assert Values(props + [p]) == Values(props) + [p.1];
    SlotAfterSnoc(Values(props), p.1);
  }

  /** One more property of processPropertyTemplates' loop: one more block, and the entry it leaves. */
  lemma PropertyStep(types: seq<string>, props: seq<(string, Value)>, i: nat, t: string,
                     content: string, slot: Option<string>, block: string, slot': Option<string>)
    requires i < |props| && |types| == i
    requires content == PropertiesXml(types, props[..i]) && slot == SlotAfter(Values(props[..i]))
    requires slot' == NextSlot(slot, props[i].1) && block == Block(TypeTag(t), props[i].0, slot')
    ensures content + block == PropertiesXml(types + [t], props[..i + 1])
    ensures slot' == SlotAfter(Values(props[..i + 1]))
  {
    var front, p := props[..i], props[i];
    TakeSnoc(props, i);
    PropertiesXmlSnoc(types, front, t, p);
    ValuesSnoc(front, p);
    SlotAfterSnoc(Values(front), p.1);
  }

  lemma TakeSnoc<T>(s: seq<T>, i: nat)
    requires i < |s|
    ensures s[..i + 1] == s[..i] + [s[i]]
  {
  }

  lemma ValuesSnoc(front: seq<(string, Value)>, p: (string, Value))
    ensures Values(front + [p]) == Values(front) + [p.1]
  {
  }

  lemma PropertyBlockNoBrace(tag: string, id: string, value: string)
    requires NoBrace(tag) && NoBrace(id) && NoBrace(value)
    ensures NoBrace(PropertyBlock(tag, id, value))
  {
    Runs1(); Runs2();
    var t := tag + ">\n\t\t";
    NoBraceAppend(tag, ">\n\t\t");
    NoBraceAppend("</cmis:value>\n\t\t</cmis:property", t);
    var u := "</cmis:value>\n\t\t</cmis:property" + t;
    NoBraceAppend(value, u);
    NoBraceAppend("\">\n\t\t\t<cmis:value>", value + u);
    var w := "\">\n\t\t\t<cmis:value>" + (value + u);
    NoBraceAppend(id, w);
    NoBraceAppend(" propertyDefinitionId=\"", id + w);
    NoBraceAppend(tag, " propertyDefinitionId=\"" + (id + w));
    NoBraceAppend("\n\t\t<cmis:property", tag + (" propertyDefinitionId=\"" + (id + w)));
  }

  /**
   * With brace-free ids and values, each property adds exactly one property
   * element, whose value is the `properties` entry after that property.
   */
  lemma PropertiesXmlStep(types: seq<string>, props: seq<(string, Value)>)
    requires |types| == |props| && props != []
    requires forall i :: 0 <= i < |props| ==> NoBrace(props[i].0) && PlainValue(props[i].1)
    ensures var n := |props| - 1;
            var slot := SlotAfter(Values(props));
            PropertiesXml(types, props)
            == PropertiesXml(types[..n], props[..n])
               + PropertyBlock(TypeTag(types[n]), props[n].0, if slot.Some? then slot.value else "")
  {
    LastBlockText(types, props);
  }

  lemma LastBlockText(types: seq<string>, props: seq<(string, Value)>)
    requires |types| == |props| && props != []
    requires forall i :: 0 <= i < |props| ==> NoBrace(props[i].0) && PlainValue(props[i].1)
    ensures var n := |props| - 1;
            var slot := SlotAfter(Values(props));
            Block(TypeTag(types[n]), props[n].0, slot)
            == PropertyBlock(TypeTag(types[n]), props[n].0, if slot.Some? then slot.value else "")
  {
    var n := |props| - 1;
    var tag := TypeTag(types[n]);
    TypeTagWord(types[n]);
    if tag != "" {
      WordNoBrace(tag);
    }
    SlotNoBrace(Values(props));
    BlockText(tag, props[n].0, SlotAfter(Values(props)));
  }

  lemma LastBlockNoBrace(types: seq<string>, props: seq<(string, Value)>)
    requires |types| == |props| && props != []
    requires forall i :: 0 <= i < |props| ==> NoBrace(props[i].0) && PlainValue(props[i].1)
    ensures var n := |props| - 1;
            var slot := SlotAfter(Values(props));
            NoBrace(PropertyBlock(TypeTag(types[n]), props[n].0, if slot.Some? then slot.value else ""))
  {
    var n := |props| - 1;
    TypeTagWord(types[n]);
    if TypeTag(types[n]) != "" {
      WordNoBrace(TypeTag(types[n]));
    }
    SlotNoBrace(Values(props));
    var slot := SlotAfter(Values(props));
    PropertyBlockNoBrace(TypeTag(types[n]), props[n].0, if slot.Some? then slot.value else "");
  }

  /** The property blocks hold no brace the entry template could take for a placeholder. */
  lemma {:induction false} PropertiesXmlNoBrace(types: seq<string>, props: seq<(string, Value)>)
    requires |types| == |props|
    requires forall i :: 0 <= i < |props| ==> NoBrace(props[i].0) && PlainValue(props[i].1)
    ensures NoBrace(PropertiesXml(types, props))
    decreases |props|
  {
    if props != [] {
      var n := |props| - 1;
      var slot := SlotAfter(Values(props));
      PropertiesXmlNoBrace(types[..n], props[..n]);
      PropertiesXmlStep(types, props);
      LastBlockNoBrace(types, props);
      NoBraceAppend(PropertiesXml(types[..n], props[..n]),
                    PropertyBlock(TypeTag(types[n]), props[n].0, if slot.Some? then slot.value else ""));
    }
  }

  // ---- the Atom entry ----

  /** The one value that is itself a template: `SUMMARY` holds getSummaryTemplate. */
  const SPECIAL: map<string, seq<Piece>> := map["SUMMARY" := SUMMARY_PIECES]

  /**
   * What `{SUMMARY}` becomes: nothing when no summary template is supplied;
   * otherwise the summary element, holding the `summary` value only when
   * that value comes after the template in the array. An earlier `summary`
   * has been applied before its placeholder appeared, and the placeholder is
   * blanked.
   */
  function SummarySlot(h: PhpArray<string>): string {
    if !Has(h, "SUMMARY") then ""
    else SummaryElement(if Find(h, "summary") > Find(h, "SUMMARY") then Get(h, "summary", "") else "")
  }

  lemma SummaryHole(h: PhpArray<string>)
    requires PlainValues(h, SPECIAL)
    ensures Render([Hole("SUMMARY")], Lift(h, SPECIAL), 0) == SummarySlot(h)
  {
    var vals := Lift(h, SPECIAL);
    FindFromUnique(h, SPECIAL, "SUMMARY", 0);
    var j := Find(h, "SUMMARY");
    assert [Hole("SUMMARY")][1..] == [];
    if j >= 0 {
      assert vals[j].1 == SUMMARY_PIECES;
      var v := if Find(h, "summary") > j then Get(h, "summary", "") else "";
      var one := [("summary", v)];
      SlotPlain(h, SPECIAL, "summary", j + 1);
      forall i | 0 <= i < |SUMMARY_PIECES| && SUMMARY_PIECES[i].Hole?
        ensures Render([SUMMARY_PIECES[i]], vals, j + 1) == Get(one, SUMMARY_PIECES[i].name, "")
      {
        assert i == 1;
      }
      RenderAsInstance(SUMMARY_PIECES, vals, j + 1, one);
      InstantiateSummary(one);
      AppendEmpty(SummaryElement(v));
    }
  }

  /**
   * Filling any well-formed template with plain values and the summary
   * template: each placeholder reads as its value, `{SUMMARY}` as SummarySlot.
   */
  lemma FillSpecial(ps: seq<Piece>, h: PhpArray<string>)
    requires WellFormed(ps) && PlainValues(h, SPECIAL)
    ensures Fill(Join(ps), h) == Instantiate(ps, Put(h, "SUMMARY", SummarySlot(h)))
  {
    var vals := Lift(h, SPECIAL);
    var h2 := Put(h, "SUMMARY", SummarySlot(h));
    LiftSpells(h, SPECIAL);
    FillMeaning(ps, vals);
    forall i | 0 <= i < |ps| && ps[i].Hole?
      ensures Render([ps[i]], vals, 0) == Get(h2, ps[i].name, "")
    {
      var k := ps[i].name;
      if k == "SUMMARY" {
        SummaryHole(h);
      } else {
        SlotPlain(h, SPECIAL, k, 0);
        PutGetOther(h, "SUMMARY", SummarySlot(h), k, "");
      }
    }
    RenderAsInstance(ps, vals, 0, h2);
  }

  lemma EntryInstance(h: seq<(string, string)>)
    ensures Instantiate(ENTRY_PIECES, h)
            == EntryBody(Get(h, "title", ""), Get(h, "SUMMARY", ""), Get(h, "CONTENT", ""), Get(h, "PROPERTIES", ""))
  {
    EntryWellFormed();
    InstantiateAppend(ENTRY_PROLOG, ENTRY_BODY_PIECES, h);
    InstantiateText(ENTRY_PROLOG, h);
    InstantiateAppend(ENTRY_SLOT_PIECES, ENTRY_OBJECT_PIECES, h);
    InstantiateSlots(h);
    InstantiateObject(h);
  }

  /**
   * processTemplate(getEntryTemplate(), $hash_values) with plain values:
   * the entry with the title, the summary slot, the content and the
   * property blocks the array holds, each absent one left empty.
   */
  lemma EntryText(h: PhpArray<string>)
    requires PlainValues(h, SPECIAL)
    ensures Fill(ENTRY_TEMPLATE, h)
            == EntryBody(Get(h, "title", ""), SummarySlot(h), Get(h, "CONTENT", ""), Get(h, "PROPERTIES", ""))
  {
    var h2 := Put(h, "SUMMARY", SummarySlot(h));
    EntryWellFormed();
    FillSpecial(ENTRY_PIECES, h);
    EntryInstance(h2);
    PutGetOther(h, "SUMMARY", SummarySlot(h), "title", "");
    PutGetOther(h, "SUMMARY", SummarySlot(h), "CONTENT", "");
    PutGetOther(h, "SUMMARY", SummarySlot(h), "PROPERTIES", "");
  }

  // ---- the values of postObject, postEntry and updateProperties ----

  /**
   * Options a caller can pass without touching the three values the
   * service sets itself, with usable keys and brace-free values.
   */
  predicate PlainOptions(options: PhpArray<string>) {
    forall i :: 0 <= i < |options| ==>
      KeyOk(options[i].0) && NoBrace(options[i].1)
      && options[i].0 != "PROPERTIES" && options[i].0 != "SUMMARY" && options[i].0 != "CONTENT"
  }

  lemma OptionsPlain(options: PhpArray<string>)
    requires PlainOptions(options)
    ensures PlainValues(options, SPECIAL)
  {
    SummaryWellFormed();
  }

  /**
   * `$hash_values["PROPERTIES"]`, `["SUMMARY"]` and, when there is content,
   * `["CONTENT"]` set on the options array: keys the options lack are
   * appended in that order, after every option.
   */
  function EntryValues(options: PhpArray<string>, xml: string, content: Option<string>): PhpArray<string> {
    var h := Put(Put(options, "PROPERTIES", xml), "SUMMARY", SUMMARY_TEMPLATE);
    if content.Some? then Put(h, "CONTENT", content.value) else h
  }

  /**
   * The entry values read as the properties, the summary template and the
   * content given; a summary template the options lacked comes after them
   * all.
   */
  lemma EntryValuesGet(options: PhpArray<string>, xml: string, content: Option<string>)
    ensures var h := EntryValues(options, xml, content);
            Get(h, "PROPERTIES", "") == xml && Get(h, "SUMMARY", "") == SUMMARY_TEMPLATE
            && Get(h, "CONTENT", "") == (if content.Some? then content.value else Get(options, "CONTENT", ""))
            && (!Has(options, "SUMMARY") ==> Find(h, "SUMMARY") >= |options|)
  {
    var h1 := Put(options, "PROPERTIES", xml);
    var h2 := Put(h1, "SUMMARY", SUMMARY_TEMPLATE);
    PutGetOther(h1, "SUMMARY", SUMMARY_TEMPLATE, "PROPERTIES", "");
    PutGetOther(options, "PROPERTIES", xml, "CONTENT", "");
    PutGetOther(h1, "SUMMARY", SUMMARY_TEMPLATE, "CONTENT", "");
    if content.Some? {
      PutGetOther(h2, "CONTENT", content.value, "PROPERTIES", "");
      PutGetOther(h2, "CONTENT", content.value, "SUMMARY", "");
    }
  }

  /** Every other key reads as in the options, at the same position. */
  lemma EntryValuesOther(options: PhpArray<string>, xml: string, content: Option<string>, k: string)
    requires k != "PROPERTIES" && k != "SUMMARY" && k != "CONTENT"
    ensures Find(EntryValues(options, xml, content), k) == Find(options, k)
    ensures Get(EntryValues(options, xml, content), k, "") == Get(options, k, "")
  {
    var h1 := Put(options, "PROPERTIES", xml);
    var h2 := Put(h1, "SUMMARY", SUMMARY_TEMPLATE);
    PutGetOther(options, "PROPERTIES", xml, k, "");
    PutGetOther(h1, "SUMMARY", SUMMARY_TEMPLATE, k, "");
    if content.Some? {
      PutGetOther(h2, "CONTENT", content.value, k, "");
    }
  }

  /** `if (!isset($h[$k])) $h[$k] = $v;`: a missing key is appended, a present one is kept. */
  function WithDefault(h: PhpArray<string>, k: string, v: string): (r: PhpArray<string>)
    ensures Has(h, k) ==> r == h
    ensures !Has(h, k) ==> r == h + [(k, v)] && Find(r, k) == |h|
    ensures Get(r, k, "") == if Has(h, k) then Get(h, k, "") else v
  {
    if Has(h, k) then h
    else
      var r := Put(h, k, v);
      FindUnique(r, k, |h|);
      r
  }

  /** A default for one key leaves every other key where it was, with its value. */
  lemma WithDefaultOther(h: PhpArray<string>, k: string, v: string, k': string)
    requires k' != k
    ensures Find(WithDefault(h, k, v), k') == Find(h, k')
    ensures Get(WithDefault(h, k, v), k', "") == Get(h, k', "")
  {
    if !Has(h, k) {
      PutGetOther(h, k, v, k', "");
    }
  }

  /**
   * postObject's values: the entry values, then a title and a summary, both
   * the sanitized escaped object name, for whichever of the two the options
   * lack.
   */
  function PostObjectValues(options: PhpArray<string>, xml: string, content: Option<string>,
                            escapedName: string): PhpArray<string>
  {
    var name := Sanitize(escapedName);
    WithDefault(WithDefault(EntryValues(options, xml, content), "title", name), "summary", name)
  }

  /** The pair updateProperties merges the options over. */
  function UpdateFixed(xml: string): PhpArray<string> {
    [("PROPERTIES", xml), ("SUMMARY", SUMMARY_TEMPLATE)]
  }

  /**
   * updateProperties' values: PROPERTIES and SUMMARY first, the options
   * merged over them, then the object's title as the default title and
   * summary.
   */
  function UpdateValues(options: PhpArray<string>, xml: string, name: string): PhpArray<string> {
    WithDefault(WithDefault(Merge(UpdateFixed(xml), options), "title", name), "summary", name)
  }

  lemma EntryValuesPlain(options: PhpArray<string>, xml: string, content: Option<string>)
    requires PlainOptions(options) && NoBrace(xml) && (content.Some? ==> NoBrace(content.value))
    ensures PlainValues(EntryValues(options, xml, content), SPECIAL)
  {
    OptionsPlain(options);
    Names3(); Names4();
    WordNoBrace("PROPERTIES"); WordNoBrace("SUMMARY"); WordNoBrace("CONTENT");
    var h1 := Put(options, "PROPERTIES", xml);
    PutPlain(options, SPECIAL, "PROPERTIES", xml);
    PutPlain(h1, SPECIAL, "SUMMARY", SUMMARY_TEMPLATE);
    if content.Some? {
      PutPlain(Put(h1, "SUMMARY", SUMMARY_TEMPLATE), SPECIAL, "CONTENT", content.value);
    }
  }

  lemma DefaultPlain(h: PhpArray<string>, k: string, v: string)
    requires PlainValues(h, SPECIAL) && IsWord(k) && k != "SUMMARY" && NoBrace(v)
    ensures PlainValues(WithDefault(h, k, v), SPECIAL)
  {
    WordNoBrace(k);
    if !Has(h, k) {
      PutPlain(h, SPECIAL, k, v);
    }
  }

  /**
   * The entry postObject sends (createDocument, createFolder, moveObject):
   * the options' title or else the sanitized name; a summary element that
   * holds the sanitized name, or nothing at all when the options carry a
   * summary of their own (it comes before the summary template and is
   * blanked); the content element when there is content; the property
   * blocks.
   */
  lemma PostObjectBody(options: PhpArray<string>, xml: string, content: Option<string>, escapedName: string)
    requires PlainOptions(options) && NoBrace(xml) && (content.Some? ==> NoBrace(content.value))
    ensures Fill(ENTRY_TEMPLATE, PostObjectValues(options, xml, content, escapedName))
            == EntryBody(if Has(options, "title") then Get(options, "title", "") else Sanitize(escapedName),
                         SummaryElement(if Has(options, "summary") then "" else Sanitize(escapedName)),
                         if content.Some? then content.value else "",
                         xml)
  {
    PostObjectSlots(options, xml, content, escapedName);
    EntryText(PostObjectValues(options, xml, content, escapedName));
  }

  /** What each slot of the entry template reads as in postObject's values. */
  lemma PostObjectSlots(options: PhpArray<string>, xml: string, content: Option<string>, escapedName: string)
    requires PlainOptions(options) && NoBrace(xml) && (content.Some? ==> NoBrace(content.value))
    ensures var h := PostObjectValues(options, xml, content, escapedName);
            PlainValues(h, SPECIAL)
            && Get(h, "title", "") == (if Has(options, "title") then Get(options, "title", "") else Sanitize(escapedName))
            && SummarySlot(h) == SummaryElement(if Has(options, "summary") then "" else Sanitize(escapedName))
            && Get(h, "CONTENT", "") == (if content.Some? then content.value else "")
            && Get(h, "PROPERTIES", "") == xml
  {
    var name := Sanitize(escapedName);
    var h0 := EntryValues(options, xml, content);
    var h1 := WithDefault(h0, "title", name);
    EntryValuesPlain(options, xml, content);
    Names2(); Names3();
    DefaultPlain(h0, "title", name);
    DefaultPlain(h1, "summary", name);
    NotReserved(options);
    EntryValuesGet(options, xml, content);
    PostObjectGet(options, xml, content, escapedName, "CONTENT");
    PostObjectGet(options, xml, content, escapedName, "PROPERTIES");
    PostObjectTitle(options, xml, content, escapedName);
    PostObjectSummary(options, xml, content, escapedName);
  }

  /** A key without a default reads as in the entry values. */
  lemma PostObjectGet(options: PhpArray<string>, xml: string, content: Option<string>, escapedName: string, k: string)
    requires k != "title" && k != "summary"
    ensures Get(PostObjectValues(options, xml, content, escapedName), k, "") == Get(EntryValues(options, xml, content), k, "")
  {
    var name := Sanitize(escapedName);
    var h0 := EntryValues(options, xml, content);
    WithDefaultOther(h0, "title", name, k);
    WithDefaultOther(WithDefault(h0, "title", name), "summary", name, k);
  }

  lemma PostObjectTitle(options: PhpArray<string>, xml: string, content: Option<string>, escapedName: string)
    ensures Get(PostObjectValues(options, xml, content, escapedName), "title", "")
            == if Has(options, "title") then Get(options, "title", "") else Sanitize(escapedName)
  {
    var name := Sanitize(escapedName);
    var h0 := EntryValues(options, xml, content);
    EntryValuesOther(options, xml, content, "title");
    WithDefaultOther(WithDefault(h0, "title", name), "summary", name, "title");
  }

  lemma PostObjectSummary(options: PhpArray<string>, xml: string, content: Option<string>, escapedName: string)
    requires PlainOptions(options)
    ensures SummarySlot(PostObjectValues(options, xml, content, escapedName))
            == SummaryElement(if Has(options, "summary") then "" else Sanitize(escapedName))
  {
    var name := Sanitize(escapedName);
    var h0 := EntryValues(options, xml, content);
    var h1 := WithDefault(h0, "title", name);
    var h := WithDefault(h1, "summary", name);
    NotReserved(options);
    EntryValuesGet(options, xml, content);
    EntryValuesOther(options, xml, content, "summary");
    SummaryAfter(options, h0, h1, h, name);
    WithDefaultOther(h1, "summary", name, "SUMMARY");
  }

  /**
   * The entry postEntry sends (createDocument and the others through it):
   * the options' title, an empty summary element whatever the options
   * hold, the content element when there is content, the property blocks.
   */
  lemma PostEntryBody(options: PhpArray<string>, xml: string, content: Option<string>)
    requires PlainOptions(options) && NoBrace(xml) && (content.Some? ==> NoBrace(content.value))
    ensures Fill(ENTRY_TEMPLATE, EntryValues(options, xml, content))
            == EntryBody(Get(options, "title", ""), SummaryElement(""),
                         if content.Some? then content.value else "", xml)
  {
    PostEntrySlots(options, xml, content);
    EntryText(EntryValues(options, xml, content));
  }

  /** What each slot of the entry template reads as in postEntry's values. */
  lemma PostEntrySlots(options: PhpArray<string>, xml: string, content: Option<string>)
    requires PlainOptions(options) && NoBrace(xml) && (content.Some? ==> NoBrace(content.value))
    ensures var h := EntryValues(options, xml, content);
            PlainValues(h, SPECIAL)
            && Get(h, "title", "") == Get(options, "title", "")
            && SummarySlot(h) == SummaryElement("")
            && Get(h, "CONTENT", "") == (if content.Some? then content.value else "")
            && Get(h, "PROPERTIES", "") == xml
  {
    var h := EntryValues(options, xml, content);
    EntryValuesPlain(options, xml, content);
    NotReserved(options);
    EntryValuesGet(options, xml, content);
    EntryValuesOther(options, xml, content, "title");
    EntryValuesOther(options, xml, content, "summary");
    assert Find(h, "summary") < |options| <= Find(h, "SUMMARY");
  }

  /**
   * The entry updateProperties sends: the options' title or else the
   * object's title; a summary element with the options' summary or else
   * the object's title; no content; the property blocks.
   */
  lemma UpdateBody(options: PhpArray<string>, xml: string, name: string)
    requires PlainOptions(options) && NoBrace(xml) && NoBrace(name)
    ensures Fill(ENTRY_TEMPLATE, UpdateValues(options, xml, name))
            == EntryBody(if Has(options, "title") then Get(options, "title", "") else name,
                         SummaryElement(if Has(options, "summary") then Get(options, "summary", "") else name),
                         "", xml)
  {
    UpdateSlots(options, xml, name);
    EntryText(UpdateValues(options, xml, name));
  }

  /** What each slot of the entry template reads as in updateProperties' values. */
  lemma UpdateSlots(options: PhpArray<string>, xml: string, name: string)
    requires PlainOptions(options) && NoBrace(xml) && NoBrace(name)
    ensures var h := UpdateValues(options, xml, name);
            PlainValues(h, SPECIAL)
            && Get(h, "title", "") == (if Has(options, "title") then Get(options, "title", "") else name)
            && SummarySlot(h) == SummaryElement(if Has(options, "summary") then Get(options, "summary", "") else name)
            && Get(h, "CONTENT", "") == ""
            && Get(h, "PROPERTIES", "") == xml
  {
    UpdatePlain(options, xml, name);
    NotReserved(options);
    UpdateGet(options, xml, name, "CONTENT");
    FixedGet(xml, "CONTENT");
    UpdateGet(options, xml, name, "PROPERTIES");
    FixedGet(xml, "PROPERTIES");
    UpdateTitle(options, xml, name);
    UpdateSummary(options, xml, name);
  }

  lemma UpdatePlain(options: PhpArray<string>, xml: string, name: string)
    requires PlainOptions(options) && NoBrace(xml) && NoBrace(name)
    ensures PlainValues(UpdateValues(options, xml, name), SPECIAL)
  {
    var fixed := UpdateFixed(xml);
    var m := Merge(fixed, options);
    assert PlainValues(fixed, SPECIAL) by {
      SummaryWellFormed();
      Names3(); Names4();
      WordNoBrace("PROPERTIES"); WordNoBrace("SUMMARY");
    }
    OptionsPlain(options);
    MergePlain(fixed, options, SPECIAL);
    Names2(); Names3();
    DefaultPlain(m, "title", name);
    DefaultPlain(WithDefault(m, "title", name), "summary", name);
  }

  /** The fixed pair holds PROPERTIES and SUMMARY and no other key. */
  lemma FixedGet(xml: string, k: string)
    ensures Has(UpdateFixed(xml), k) <==> k == "PROPERTIES" || k == "SUMMARY"
    ensures Get(UpdateFixed(xml), k, "")
            == if k == "PROPERTIES" then xml else if k == "SUMMARY" then SUMMARY_TEMPLATE else ""
  {
    var f := UpdateFixed(xml);
    if k == "PROPERTIES" {
      FindUnique(f, k, 0);
    } else if k == "SUMMARY" {
      FindUnique(f, k, 1);
    } else {
      assert Find(f, k) == -1;
    }
  }

  /** A key without a default reads as the option when there is one and as the fixed value otherwise. */
  lemma UpdateGet(options: PhpArray<string>, xml: string, name: string, k: string)
    requires k != "title" && k != "summary"
    ensures Get(UpdateValues(options, xml, name), k, "")
            == if Has(options, k) then Get(options, k, "") else Get(UpdateFixed(xml), k, "")
  {
    var m := Merge(UpdateFixed(xml), options);
    MergeGet(UpdateFixed(xml), options, k, "");
    WithDefaultOther(m, "title", name, k);
    WithDefaultOther(WithDefault(m, "title", name), "summary", name, k);
  }

  /** The title of updateProperties' values: the option when given, the object's name otherwise. */
  lemma UpdateTitle(options: PhpArray<string>, xml: string, name: string)
    ensures Get(UpdateValues(options, xml, name), "title", "")
            == if Has(options, "title") then Get(options, "title", "") else name
  {
    var m := Merge(UpdateFixed(xml), options);
    MergeGet(UpdateFixed(xml), options, "title", "");
    FixedGet(xml, "title");
    WithDefaultOther(WithDefault(m, "title", name), "summary", name, "title");
  }

  /** The summary slot of updateProperties' values: the option when given, the object's name otherwise. */
  lemma UpdateSummary(options: PhpArray<string>, xml: string, name: string)
    requires PlainOptions(options)
    ensures SummarySlot(UpdateValues(options, xml, name))
            == SummaryElement(if Has(options, "summary") then Get(options, "summary", "") else name)
  {
    var m := Merge(UpdateFixed(xml), options);
    FixedFirst(UpdateFixed(xml), options, xml);
    MergeGet(UpdateFixed(xml), options, "summary", "");
    FixedGet(xml, "summary");
    DefaultsSummary(m, WithDefault(m, "title", name), UpdateValues(options, xml, name), name);
  }

  /**
   * Defaults for title and summary added after SUMMARY: the summary slot
   * shows the summary already there when it sits after SUMMARY, the
   * default otherwise.
   */
  lemma DefaultsSummary(h0: PhpArray<string>, h1: PhpArray<string>, h: PhpArray<string>, name: string)
    requires Has(h0, "SUMMARY") && (Has(h0, "summary") ==> Find(h0, "summary") > Find(h0, "SUMMARY"))
    requires h1 == WithDefault(h0, "title", name) && h == WithDefault(h1, "summary", name)
    ensures SummarySlot(h) == SummaryElement(if Has(h0, "summary") then Get(h0, "summary", "") else name)
  {
    WithDefaultOther(h0, "title", name, "SUMMARY");
    WithDefaultOther(h1, "summary", name, "SUMMARY");
    WithDefaultOther(h0, "title", name, "summary");
  }

  lemma NotReserved(options: PhpArray<string>)
    requires PlainOptions(options)
    ensures !Has(options, "SUMMARY") && !Has(options, "CONTENT") && !Has(options, "PROPERTIES")
    ensures Get(options, "CONTENT", "") == ""
  {
  }

  /** In postObject's values the summary template comes after an option `summary` and before a default one. */
  lemma SummaryAfter(options: PhpArray<string>, h0: PhpArray<string>, h1: PhpArray<string>, h: PhpArray<string>, name: string)
    requires Find(h0, "SUMMARY") >= |options| && Find(h0, "summary") == Find(options, "summary")
    requires h1 == WithDefault(h0, "title", name) && h == WithDefault(h1, "summary", name)
    ensures Find(h, "SUMMARY") == Find(h0, "SUMMARY")
    ensures Find(h, "summary") > Find(h, "SUMMARY") <==> !Has(options, "summary")
  {
    WithDefaultOther(h0, "title", name, "SUMMARY");
    WithDefaultOther(h1, "summary", name, "SUMMARY");
    WithDefaultOther(h0, "title", name, "summary");
  }

  /** After merging the options over the fixed pair, SUMMARY sits at position 1 and every option after it. */
  lemma FixedFirst(fixed: PhpArray<string>, options: PhpArray<string>, xml: string)
    requires fixed == UpdateFixed(xml) && PlainOptions(options)
    ensures Find(Merge(fixed, options), "SUMMARY") == 1
    ensures Has(options, "summary") ==> Find(Merge(fixed, options), "summary") > 1
  {
    var m := Merge(fixed, options);
    MergeKeepsOrder(fixed, options);
    assert Keys(fixed) == ["PROPERTIES", "SUMMARY"];
    assert Keys(m)[0] == "PROPERTIES" && Keys(m)[1] == "SUMMARY";
    FindUnique(m, "SUMMARY", 1);
    if Has(options, "summary") {
      MergeGet(fixed, options, "summary", "");
      var f := Find(m, "summary");
      assert f != 0 && f != 1;
    }
  }

  // ---- the title of a new object ----

  /** The characters `/[^A-Za-z0-9\s.&; ]/` does not remove. */
  predicate TitleChar(c: char) {
    ('A' <= c <= 'Z') || ('a' <= c <= 'z') || ('0' <= c <= '9') || IsSpace(c) || c == '.' || c == '&' || c == ';'
  }

  /** preg_replace('/[^A-Za-z0-9\s.&; ]/', '', $s): every other character is dropped. */
  function Sanitize(s: string): (r: string)
    ensures |r| <= |s|
    ensures forall i :: 0 <= i < |r| ==> TitleChar(r[i])
    ensures NoBrace(r)
  {
    if s == [] then ""
    else (if TitleChar(s[0]) then [s[0]] else []) + Sanitize(s[1..])
  }

  lemma {:induction false} SanitizeAppend(a: string, b: string)
    ensures Sanitize(a + b) == Sanitize(a) + Sanitize(b)
  {
    if a == [] {
      assert a + b == b;
      EmptyConcat(Sanitize(b));
    } else {
      assert (a + b)[0] == a[0];
      assert (a + b)[1..] == a[1..] + b;
      SanitizeAppend(a[1..], b);
      var x := if TitleChar(a[0]) then [a[0]] else [];
      ConcatAssoc(x, Sanitize(a[1..]), Sanitize(b));
    }
  }

  /** A text is left as it is exactly when every character of it is kept. */
  lemma {:induction false} SanitizeKeeps(s: string)
    ensures Sanitize(s) == s <==> forall i :: 0 <= i < |s| ==> TitleChar(s[i])
  {
    if s != [] {
      SanitizeKeeps(s[1..]);
      if !TitleChar(s[0]) {
        assert |Sanitize(s)| < |s|;
      } else if forall i :: 0 <= i < |s[1..]| ==> TitleChar(s[1..][i]) {
        assert forall i :: 0 <= i < |s| ==> TitleChar(s[i]) by {
          forall i | 0 <= i < |s| ensures TitleChar(s[i]) {
            if i > 0 { assert s[i] == s[1..][i - 1]; }
          }
        }
      } else {
        var i :| 0 <= i < |s[1..]| && !TitleChar(s[1..][i]);
        assert s[i + 1] == s[1..][i];
        assert Sanitize(s)[1..] == Sanitize(s[1..]);
      }
    }
  }

  lemma SanitizeIdempotent(s: string)
    ensures Sanitize(Sanitize(s)) == Sanitize(s)
  {
    SanitizeKeeps(Sanitize(s));
  }

  // ---- the content element ----

  /**
   * getContentEntry: nothing for content PHP reads as false, otherwise the
   * content template filled with the encoded content and its media type.
   */
  function ContentEntry(content: string, mediaType: string, encode: string -> string): (r: Option<string>)
    ensures r.None? <==> !Truthy(Str(content))
  {
    if !Truthy(Str(content)) then None
    else Some(Fill(CONTENT_TEMPLATE, ContentValues(encode(content), mediaType)))
  }

  function ContentValues(data: string, mediaType: string): (h: PhpArray<string>)
    ensures Get(h, "content", "") == data && Get(h, "content_type", "") == mediaType
  {
    var h := [("content", data), ("content_type", mediaType)];
    FindUnique(h, "content", 0);
    FindUnique(h, "content_type", 1);
    h
  }

  /** With brace-free data and media type, the entry is the content element around them. */
  lemma ContentText(content: string, mediaType: string, encode: string -> string)
    requires Truthy(Str(content)) && NoBrace(encode(content)) && NoBrace(mediaType)
    ensures ContentEntry(content, mediaType, encode) == Some(ContentBlock(mediaType, encode(content)))
  {
    var h := ContentValues(encode(content), mediaType);
    Names2();
    WordNoBrace("content"); WordNoBrace("content_type");
    assert PlainValues(h, map[]);
    ContentWellFormed();
    FillPlain(CONTENT_PIECES, h);
    InstantiateContent(h);
  }

  // ---- the query document ----

  /** query's `$default_hash_values`, in their order. */
  const QUERY_DEFAULTS: PhpArray<string> :=
    [("includeAllowableActions", "true"), ("searchAllVersions", "false"), ("maxItems", "10"), ("skipCount", "0")]

  /** The defaults, the options merged over them, then `q` set to the statement. */
  function QueryValues(statement: string, options: PhpArray<string>): PhpArray<string> {
    Put(Merge(QUERY_DEFAULTS, options), "q", statement)
  }

  /** Options with usable keys and brace-free values. */
  predicate PlainQueryOptions(options: PhpArray<string>) {
    forall i :: 0 <= i < |options| ==> KeyOk(options[i].0) && NoBrace(options[i].1)
  }

  /**
   * The query document: the statement, and each option the caller gives or
   * else its default (`false`, `true`, nothing, nothing, 10 and 0).
   */
  lemma QueryBody(statement: string, options: PhpArray<string>)
    requires PlainQueryOptions(options) && NoBrace(statement)
    ensures Fill(QUERY_TEMPLATE, QueryValues(statement, options))
            == QueryDocument(statement,
                             QueryOption(options, "searchAllVersions"),
                             QueryOption(options, "includeAllowableActions"),
                             QueryOption(options, "includeRelationships"),
                             QueryOption(options, "renditionFilter"),
                             QueryOption(options, "maxItems"),
                             QueryOption(options, "skipCount"))
  {
    var h := QueryValues(statement, options);
    QueryValuesPlain(statement, options);
    QueryText(h);
    QueryGet(statement, options, "searchAllVersions");
    QueryGet(statement, options, "includeAllowableActions");
    QueryGet(statement, options, "includeRelationships");
    QueryGet(statement, options, "renditionFilter");
    QueryGet(statement, options, "maxItems");
    QueryGet(statement, options, "skipCount");
  }

  /** The value an option takes in the query: the caller's, else the default. */
  function QueryOption(options: PhpArray<string>, k: string): string {
    if Has(options, k) then Get(options, k, "") else Get(QUERY_DEFAULTS, k, "")
  }

  lemma QueryValuesPlain(statement: string, options: PhpArray<string>)
    requires PlainQueryOptions(options) && NoBrace(statement)
    ensures PlainValues(QueryValues(statement, options), map[])
  {
    assert PlainValues(QUERY_DEFAULTS, map[]) by {
      Names4(); Names5(); Names6();
      WordNoBrace("includeAllowableActions"); WordNoBrace("searchAllVersions");
      WordNoBrace("maxItems"); WordNoBrace("skipCount");
      assert NoBrace("true") && NoBrace("false") && NoBrace("10") && NoBrace("0");
    }
    MergePlain(QUERY_DEFAULTS, options, map[]);
    Names4();
    WordNoBrace("q");
    PutPlain(Merge(QUERY_DEFAULTS, options), map[], "q", statement);
  }

  /** Every key but `q` reads as its query option. */
  lemma QueryGet(statement: string, options: PhpArray<string>, k: string)
    requires k != "q"
    ensures Get(QueryValues(statement, options), k, "") == QueryOption(options, k)
  {
    PutGetOther(Merge(QUERY_DEFAULTS, options), "q", statement, k, "");
    MergeGet(QUERY_DEFAULTS, options, k, "");
  }

  lemma QueryText(h: PhpArray<string>)
    requires PlainValues(h, map[])
    ensures Fill(QUERY_TEMPLATE, h)
            == QueryDocument(Get(h, "q", ""), Get(h, "searchAllVersions", ""), Get(h, "includeAllowableActions", ""),
                             Get(h, "includeRelationships", ""), Get(h, "renditionFilter", ""),
                             Get(h, "maxItems", ""), Get(h, "skipCount", ""))
  {
    QueryWellFormed();
    FillPlain(QUERY_PIECES, h);
    QueryInstance(h);
  }

  lemma QueryInstance(h: seq<(string, string)>)
    ensures Instantiate(QUERY_PIECES, h)
            == QueryDocument(Get(h, "q", ""), Get(h, "searchAllVersions", ""), Get(h, "includeAllowableActions", ""),
                             Get(h, "includeRelationships", ""), Get(h, "renditionFilter", ""),
                             Get(h, "maxItems", ""), Get(h, "skipCount", ""))
  {
    QueryWellFormed();
    InstantiateAppend(QUERY_PROLOG, QUERY_BODY_PIECES, h);
    InstantiateText(QUERY_PROLOG, h);
    InstantiateAppend(QUERY_STATEMENT_PIECES, QUERY_FLAG_PIECES + (QUERY_FILTER_PIECES + QUERY_PAGING_PIECES), h);
    InstantiateAppend(QUERY_FLAG_PIECES, QUERY_FILTER_PIECES + QUERY_PAGING_PIECES, h);
    InstantiateAppend(QUERY_FILTER_PIECES, QUERY_PAGING_PIECES, h);
    InstantiateStatement(h);
    InstantiateFlags(h);
    InstantiateFilters(h);
    InstantiatePaging(h);
  }
}
