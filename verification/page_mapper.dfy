/**
 * PageMapper: turns a documentation page of the platform into the portal's Page
 * representation. The loosely typed configuration map is parsed into a typed
 * PageConfiguration, the metadata map is re-indexed positionally, and page links
 * are built by string concatenation.
 */
module Pages {
  import opened Optional
  import opened Text

  // Configuration keys (PageMapper's constants).
  const DISPLAY_OPERATION_ID := "displayOperationId"
  const DOC_EXPANSION := "docExpansion"
  const ENABLE_FILTERING := "enableFiltering"
  const MAX_DISPLAYED_TAGS := "maxDisplayedTags"
  const SHOW_COMMON_EXTENSIONS := "showCommonExtensions"
  const SHOW_EXTENSIONS := "showExtensions"
  const SHOW_URL := "showURL"
  const TRY_IT := "tryIt"
  const TRY_IT_ANONYMOUS := "tryItAnonymous"
  const TRY_IT_URL := "tryItURL"
  const VIEWER := "viewer"

  datatype PageType = Swagger | Markdown | Folder | Root | Link
  datatype DocExpansion = ListExpansion | FullExpansion | NoExpansion
  datatype Viewer = SwaggerUI | Redoc

  /** Symbol names of the enumerations, matched ignoring case. */
  const PAGE_TYPES: seq<(string, PageType)> :=
    [("SWAGGER", Swagger), ("MARKDOWN", Markdown), ("FOLDER", Folder), ("ROOT", Root), ("LINK", Link)]
  const DOC_EXPANSIONS: seq<(string, DocExpansion)> :=
    [("LIST", ListExpansion), ("FULL", FullExpansion), ("NONE", NoExpansion)]
  const VIEWERS: seq<(string, Viewer)> := [("SWAGGER", SwaggerUI), ("REDOC", Redoc)]

  /**
   * A page as the page service returns it. The configuration and metadata maps
   * may be null (None); metadata is a sequence of (key, value) pairs in the map's
   * iteration order.
   */
  datatype PageEntity = PageEntity(
    id: string,
    name: string,
    pageType: string,
    parentId: string,
    order: int,
    configuration: Option<map<string, string>>,
    metadata: Option<seq<(string, string)>>,
    lastModificationDate: int,
    lastContributor: string,
    published: bool)

  /** The typed configuration; a field is None when its key is absent or its value does not parse. */
  datatype PageConfiguration = PageConfiguration(
    displayOperationId: Option<bool>,
    docExpansion: Option<DocExpansion>,
    enableFiltering: Option<bool>,
    maxDisplayedTags: Option<int>,
    showCommonExtensions: Option<bool>,
    showExtensions: Option<bool>,
    showUrl: Option<string>,
    tryIt: Option<bool>,
    tryItAnonymous: Option<bool>,
    tryItUrl: Option<string>,
    viewer: Option<Viewer>)

  datatype Metadata = Metadata(name: string, value: string, order: string)

  datatype PageLinks = PageLinks(self: string, content: string, parent: string)

  /** The portal representation of a page; updatedAt is in epoch milliseconds. */
  datatype Page = Page(
    id: string,
    name: string,
    pageType: Option<PageType>,
    parent: string,
    order: int,
    configuration: Option<PageConfiguration>,
    metadata: Option<seq<Metadata>>,
    updatedAt: int)

  function Lookup(m: map<string, string>, key: string): Option<string> {
    if key in m then Some(m[key]) else None
  }

  function BooleanField(m: map<string, string>, key: string): Option<bool> {
    match Lookup(m, key)
    case Some(v) => ParseBoolean(v)
    case None => None
  }

  function IntField(m: map<string, string>, key: string): Option<int> {
    match Lookup(m, key)
    case Some(v) => ParseInt(v)
    case None => None
  }

  function EnumField<E>(m: map<string, string>, key: string, symbols: seq<(string, E)>): Option<E> {
    match Lookup(m, key)
    case Some(v) => ParseEnum(v, symbols)
    case None => None
  }

  /** Parses every recognised key of the configuration map into its typed field. */
  function ConvertConfiguration(m: map<string, string>): PageConfiguration {
    PageConfiguration(
      BooleanField(m, DISPLAY_OPERATION_ID),
      EnumField(m, DOC_EXPANSION, DOC_EXPANSIONS),
      BooleanField(m, ENABLE_FILTERING),
      IntField(m, MAX_DISPLAYED_TAGS),
      BooleanField(m, SHOW_COMMON_EXTENSIONS),
      BooleanField(m, SHOW_EXTENSIONS),
      Lookup(m, SHOW_URL),
      BooleanField(m, TRY_IT),
      BooleanField(m, TRY_IT_ANONYMOUS),
      Lookup(m, TRY_IT_URL),
      EnumField(m, VIEWER, VIEWERS))
  }

  /**
   * Metadata entries from position start on, each tagged with its position as a
   * decimal order string.
   */
  function ReindexFrom(entries: seq<(string, string)>, start: nat): (r: seq<Metadata>)
    ensures |r| == |entries|
    ensures forall i :: 0 <= i < |r| ==>
      r[i] == Metadata(entries[i].0, entries[i].1, IntToDecimal(start + i))
  {
    if |entries| == 0 then []
    else
      var rest := ReindexFrom(entries[1..], start + 1);
      assert forall i :: 1 <= i < |entries| ==> entries[i] == entries[1..][i - 1];
      [Metadata(entries[0].0, entries[0].1, IntToDecimal(start))] + rest
  }

  /** The metadata list, ordered "0", "1", ... along the map's iteration order. */
  function ConvertMetadata(entries: seq<(string, string)>): seq<Metadata> {
    ReindexFrom(entries, 0)
  }

  /**
   * PageMapper.convert. The configuration object is built only from a present,
   * non-empty map, and is then its typed parse (which loses nothing, see
   * ConfigurationRoundTrip); the metadata list only from a present map, and is
   * then its positional re-indexing (see ConvertMetadataReindexes). The page type
   * is the source's type name matched ignoring case.
   */
  function Convert(p: PageEntity): (r: Page)
    ensures r.configuration.Some? <==> p.configuration.Some? && |p.configuration.value| > 0
    ensures r.metadata.Some? <==> p.metadata.Some?
    ensures r.id == p.id && r.name == p.name && r.parent == p.parentId && r.order == p.order
    ensures r.updatedAt == p.lastModificationDate
    ensures r.configuration.Some? ==> r.configuration.value == ConvertConfiguration(p.configuration.value)
    ensures r.metadata.Some? ==> r.metadata.value == ConvertMetadata(p.metadata.value)
    ensures r.pageType == ParseEnum(p.pageType, PAGE_TYPES)
  {
    Page(
      p.id,
      p.name,
      ParseEnum(p.pageType, PAGE_TYPES),
      p.parentId,
      p.order,
      if p.configuration.Some? && |p.configuration.value| > 0
      then Some(ConvertConfiguration(p.configuration.value)) else None,
      if p.metadata.Some? then Some(ConvertMetadata(p.metadata.value)) else None,
      p.lastModificationDate)
  }

  /**
   * The metadata of a converted page: one entry per source entry, in the same
   * order, with the same name and value, and whose order string parses back to
   * its position; so no two entries share an order.
   */
  lemma ConvertMetadataReindexes(p: PageEntity, i: nat, j: nat)
    requires p.metadata.Some?
    ensures |Convert(p).metadata.value| == |p.metadata.value|
    ensures i < |p.metadata.value| ==>
      var m := Convert(p).metadata.value[i];
      m.name == p.metadata.value[i].0 && m.value == p.metadata.value[i].1 &&
      ParseDecimal(m.order) == Some(i as int)
    ensures i < j < |p.metadata.value| ==>
      Convert(p).metadata.value[i].order != Convert(p).metadata.value[j].order
  {
    DecimalRoundTrip(i);
    IntToDecimalInjective(i, j);
  }

  /** PageMapper.computePageLinks: the page itself, its content below it, and its parent. */
  function ComputePageLinks(basePath: string, parentPath: string): (l: PageLinks)
    ensures l.self == basePath && l.parent == parentPath
    ensures |l.content| == |basePath| + 8
    ensures l.content[..|basePath|] == basePath && l.content[|basePath|..] == "/content"
  {
    PageLinks(basePath, basePath + "/content", parentPath)
  }

  /** Different pages get different content links: the content link determines the base path. */
  lemma ContentLinkInjective(a: string, b: string, pa: string, pb: string)
    ensures ComputePageLinks(a, pa).content == ComputePageLinks(b, pb).content ==> a == b
  {
    var ca, cb := ComputePageLinks(a, pa).content, ComputePageLinks(b, pb).content;
    if ca == cb {
      assert a == ca[..|a|] == cb[..|b|] == b;
    }
  }

  // ---------------------------------------------------------------------------
  // The inverse rendering: a typed configuration written back as strings.

  function Put(m: map<string, string>, key: string, v: Option<string>): map<string, string> {
    if v.Some? then m[key := v.value] else m
  }

  function BooleanText(b: Option<bool>): Option<string> {
    if b.Some? then Some(BooleanToString(b.value)) else None
  }

  function DocExpansionText(d: Option<DocExpansion>): Option<string> {
    match d
    case None => None
    case Some(ListExpansion) => Some("list")
    case Some(FullExpansion) => Some("full")
    case Some(NoExpansion) => Some("none")
  }

  function ViewerText(v: Option<Viewer>): Option<string> {
    match v
    case None => None
    case Some(SwaggerUI) => Some("Swagger")
    case Some(Redoc) => Some("Redoc")
  }

  /** The (key, value) entries a typed configuration is stored as; absent fields are left out. */
  function ConfigurationEntries(c: PageConfiguration): seq<(string, Option<string>)> {
    [(DISPLAY_OPERATION_ID, BooleanText(c.displayOperationId)),
     (DOC_EXPANSION, DocExpansionText(c.docExpansion)),
     (ENABLE_FILTERING, BooleanText(c.enableFiltering)),
     (MAX_DISPLAYED_TAGS, if c.maxDisplayedTags.Some? then Some(IntToDecimal(c.maxDisplayedTags.value)) else None),
     (SHOW_COMMON_EXTENSIONS, BooleanText(c.showCommonExtensions)),
     (SHOW_EXTENSIONS, BooleanText(c.showExtensions)),
     (SHOW_URL, c.showUrl),
     (TRY_IT, BooleanText(c.tryIt)),
     (TRY_IT_ANONYMOUS, BooleanText(c.tryItAnonymous)),
     (TRY_IT_URL, c.tryItUrl),
     (VIEWER, ViewerText(c.viewer))]
  }

  function FromEntries(es: seq<(string, Option<string>)>): map<string, string> {
    if |es| == 0 then map[] else Put(FromEntries(es[1..]), es[0].0, es[0].1)
  }

  /** The string map a typed configuration is stored as. */
  function RenderConfiguration(c: PageConfiguration): map<string, string> {
    FromEntries(ConfigurationEntries(c))
  }

  /** With distinct keys, each entry's value is what the built map holds for its key. */
  lemma {:induction false} LookupFromEntries(es: seq<(string, Option<string>)>, q: string)
    requires forall i, j :: 0 <= i < j < |es| ==> es[i].0 != es[j].0
    ensures forall i :: 0 <= i < |es| && es[i].0 == q ==> Lookup(FromEntries(es), q) == es[i].1
    ensures (forall i :: 0 <= i < |es| ==> es[i].0 != q) ==> Lookup(FromEntries(es), q) == None
  {
    if |es| > 0 {
      var rest := es[1..];
      assert forall i :: 1 <= i < |es| ==> es[i] == rest[i - 1];
      LookupFromEntries(rest, q);
    }
  }

  lemma DocExpansionRoundTrip(d: Option<DocExpansion>)
    ensures (match DocExpansionText(d) case Some(v) => ParseEnum(v, DOC_EXPANSIONS) case None => None) == d
  {
    match d
    case None =>
    case Some(ListExpansion) => assert EqualsIgnoreCase("list", "LIST");
    case Some(FullExpansion) =>
      assert FoldCase("full"[0]) != FoldCase("LIST"[0]);
      assert EqualsIgnoreCase("full", "FULL");
    case Some(NoExpansion) =>
      assert FoldCase("none"[0]) != FoldCase("LIST"[0]);
      assert FoldCase("none"[0]) != FoldCase("FULL"[0]);
      assert EqualsIgnoreCase("none", "NONE");
  }

  lemma ViewerRoundTrip(v: Option<Viewer>)
    ensures (match ViewerText(v) case Some(t) => ParseEnum(t, VIEWERS) case None => None) == v
  {
    match v
    case None =>
    case Some(SwaggerUI) => assert EqualsIgnoreCase("Swagger", "SWAGGER");
    case Some(Redoc) =>
      assert !EqualsIgnoreCase("Redoc", "SWAGGER");
      assert EqualsIgnoreCase("Redoc", "REDOC");
  }

  /** The rendering stores each field under its own key. */
  lemma RenderLookups(c: PageConfiguration, i: nat)
    requires i < 11
    ensures Lookup(RenderConfiguration(c), ConfigurationEntries(c)[i].0) == ConfigurationEntries(c)[i].1
  {
    var es := ConfigurationEntries(c);
    assert SHOW_EXTENSIONS[0] != TRY_IT_ANONYMOUS[0];
    assert forall i, j :: 0 <= i < j < |es| ==> |es[i].0| != |es[j].0| || es[i].0[0] != es[j].0[0];
    LookupFromEntries(es, es[i].0);
  }

  /**
   * Parsing is lossless on stored configurations: every typed configuration whose
   * tag count fits an int is recovered from its string rendering.
   */
  lemma ConfigurationRoundTrip(c: PageConfiguration)
    requires c.maxDisplayedTags.Some? ==> IntMin <= c.maxDisplayedTags.value <= IntMax
    ensures ConvertConfiguration(RenderConfiguration(c)) == c
  {
    var m := RenderConfiguration(c);
    assert BooleanField(m, DISPLAY_OPERATION_ID) == c.displayOperationId by { RenderLookups(c, 0); }
    assert EnumField(m, DOC_EXPANSION, DOC_EXPANSIONS) == c.docExpansion by {
      RenderLookups(c, 1);
      DocExpansionRoundTrip(c.docExpansion);
    }
    assert BooleanField(m, ENABLE_FILTERING) == c.enableFiltering by { RenderLookups(c, 2); }
    assert IntField(m, MAX_DISPLAYED_TAGS) == c.maxDisplayedTags by {
      RenderLookups(c, 3);
      if c.maxDisplayedTags.Some? {
        IntRoundTrip(c.maxDisplayedTags.value);
      }
    }
    assert BooleanField(m, SHOW_COMMON_EXTENSIONS) == c.showCommonExtensions by { RenderLookups(c, 4); }
    assert BooleanField(m, SHOW_EXTENSIONS) == c.showExtensions by { RenderLookups(c, 5); }
    assert Lookup(m, SHOW_URL) == c.showUrl by { RenderLookups(c, 6); }
    assert BooleanField(m, TRY_IT) == c.tryIt by { RenderLookups(c, 7); }
    assert BooleanField(m, TRY_IT_ANONYMOUS) == c.tryItAnonymous by { RenderLookups(c, 8); }
    assert Lookup(m, TRY_IT_URL) == c.tryItUrl by { RenderLookups(c, 9); }
    assert EnumField(m, VIEWER, VIEWERS) == c.viewer by {
      RenderLookups(c, 10);
      ViewerRoundTrip(c.viewer);
    }
  }

  // ---------------------------------------------------------------------------
  // The cases PageMapperTest pins down.

  /** The configuration of the full conversion test, put into the map one entry at a time. */
  const TEST_CONFIGURATION_ENTRIES: seq<(string, Option<string>)> := [
    (DISPLAY_OPERATION_ID, Some("false")), (DOC_EXPANSION, Some("list")),
    (ENABLE_FILTERING, Some("true")), (MAX_DISPLAYED_TAGS, Some("42")),
    (SHOW_COMMON_EXTENSIONS, Some("false")), (SHOW_EXTENSIONS, Some("true")),
    (SHOW_URL, Some("false")), (TRY_IT, Some("true")), (TRY_IT_ANONYMOUS, Some("false")),
    (TRY_IT_URL, Some("http://try.it/url")), (VIEWER, Some("Redoc"))]

  /** The typed configuration of the full conversion test. */
  lemma TestConfiguration()
    ensures ConvertConfiguration(FromEntries(TEST_CONFIGURATION_ENTRIES)) == PageConfiguration(
      Some(false), Some(ListExpansion), Some(true), Some(42), Some(false), Some(true),
      Some("false"), Some(true), Some(false), Some("http://try.it/url"), Some(Redoc))
  {
    var expected := PageConfiguration(
      Some(false), Some(ListExpansion), Some(true), Some(42), Some(false), Some(true),
      Some("false"), Some(true), Some(false), Some("http://try.it/url"), Some(Redoc));
    assert IntToDecimal(42) == "42";
    assert ConfigurationEntries(expected) == TEST_CONFIGURATION_ENTRIES;
    ConfigurationRoundTrip(expected);
  }

  /**
   * The full conversion: every configuration value is typed as expected (showUrl
   * stays the string "false"), the single metadata entry gets order "0", and the
   * scalar fields are copied.
   */
  lemma TestConvert(now: int)
    ensures var r := Convert(PageEntity("my-page-id", "my-page-name", "SWAGGER", "my-page-parent", 1,
                                        Some(FromEntries(TEST_CONFIGURATION_ENTRIES)), Some([("meta", "my-page-id")]),
                                        now, "my-page-contributor", false));
      && r.configuration == Some(PageConfiguration(
           Some(false), Some(ListExpansion), Some(true), Some(42), Some(false), Some(true),
           Some("false"), Some(true), Some(false), Some("http://try.it/url"), Some(Redoc)))
      && r.metadata == Some([Metadata("meta", "my-page-id", "0")])
      && r.id == "my-page-id" && r.name == "my-page-name" && r.order == 1
      && r.parent == "my-page-parent" && r.pageType == Some(Swagger) && r.updatedAt == now
  {
    TestConfiguration();
    var md := ConvertMetadata([("meta", "my-page-id")]);
    assert md[0] == Metadata("meta", "my-page-id", IntToDecimal(0));
    assert IntToDecimal(0) == "0";
    assert md == [Metadata("meta", "my-page-id", "0")];
    assert EqualsIgnoreCase("SWAGGER", PAGE_TYPES[0].0);
  }

  /** Without configuration and metadata maps, both are absent from the page. */
  lemma TestMinimalConvert(now: int)
    ensures var r := Convert(PageEntity("", "", "SWAGGER", "", 0, None, None, now, "", false));
      r.configuration == None && r.metadata == None && r.pageType == Some(Swagger) && r.updatedAt == now
  {
    assert EqualsIgnoreCase("SWAGGER", PAGE_TYPES[0].0);
  }

  /** The page links of the link test. */
  lemma TestApiLinks()
    ensures ComputePageLinks("/my-page-id", "/my-page-parent") ==
      PageLinks("/my-page-id", "/my-page-id/content", "/my-page-parent")
  {
  }
}
