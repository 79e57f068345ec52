/**
 * `TOOLS`: the six tool descriptions the server lists, each a name, a
 * description and an input schema (an object schema with properties and,
 * for all but `check_usage`, a list of required properties).
 */
module Tools {
  import opened Wrappers
  import opened JsValues

  /** A JSON Schema `type`: one name, or a list of names. */
  datatype JsonType = StringType | NumberType

  /** One property of an input schema; `enumValues` is `None` when the schema has no `enum`. */
  datatype Property = Property(name: string, types: seq<JsonType>, enumValues: Option<seq<JsValue>>,
                               description: string)

  /** An input schema of `type: 'object'`; `required` is `None` when the key is absent. */
  datatype InputSchema = InputSchema(properties: seq<Property>, required: Option<seq<string>>)

  datatype Tool = Tool(name: string, description: string, inputSchema: InputSchema)

  const ThumbnailSizes: seq<JsValue> := [Num(42), Num(84), Num(200)]
  const Flags: seq<JsValue> := [Num(0), Num(1)]
  const Styles: seq<JsValue> := [Str("solid"), Str("line"), Str("solid,line")]
  const Filetypes: seq<JsValue> := [Str("svg"), Str("png")]

  const SearchIconsTool := Tool(
    "search_icons",
    "Search for icons on The Noun Project. Supports filtering by style (solid/line), line weight, public domain status, and more.",
    InputSchema([
      Property("query", [StringType], None, "Search term for icons (e.g., \"dog\", \"house\", \"bicycle\")"),
      Property("styles", [StringType], Some(Styles), "Filter by icon style: solid, line, or both (solid,line)"),
      Property("line_weight", [NumberType, StringType], None,
        "For line icons, filter by line weight (1-60) or range (e.g., \"18-20\")"),
      Property("limit_to_public_domain", [NumberType], Some(Flags),
        "Set to 1 to limit results to public domain icons only"),
      Property("thumbnail_size", [NumberType], Some(ThumbnailSizes), "Thumbnail size to return (42, 84, or 200 pixels)"),
      Property("include_svg", [NumberType], Some(Flags), "Set to 1 to include SVG URLs in the response"),
      Property("limit", [NumberType], None, "Maximum number of results to return")
    ], Some(["query"])))

  const GetIconTool := Tool(
    "get_icon",
    "Get detailed information about a specific icon by its ID. Returns icon metadata, creator info, tags, and download URLs.",
    InputSchema([
      Property("icon_id", [NumberType], None, "The unique ID of the icon"),
      Property("thumbnail_size", [NumberType], Some(ThumbnailSizes), "Thumbnail size to return (42, 84, or 200 pixels)")
    ], Some(["icon_id"])))

  const GetCollectionTool := Tool(
    "get_collection",
    "Get a collection by ID. Returns collection metadata and the icons it contains.",
    InputSchema([
      Property("collection_id", [NumberType], None, "The unique ID of the collection"),
      Property("thumbnail_size", [NumberType], Some(ThumbnailSizes),
        "Thumbnail size to return for icons (42, 84, or 200 pixels)"),
      Property("include_svg", [NumberType], Some(Flags), "Set to 1 to include SVG URLs in the response"),
      Property("limit", [NumberType], None, "Maximum number of icons to return from the collection")
    ], Some(["collection_id"])))

  const IconAutocompleteTool := Tool(
    "icon_autocomplete",
    "Get autocomplete suggestions for icon search terms. Useful for helping users discover related terms.",
    InputSchema([
      Property("query", [StringType], None, "Partial search term to get suggestions for"),
      Property("limit", [NumberType], None, "Maximum number of suggestions to return")
    ], Some(["query"])))

  const CheckUsageTool := Tool(
    "check_usage",
    "Check current API usage and limits. Returns monthly quota information including usage count and remaining requests.",
    InputSchema([], None))

  const GetDownloadUrlTool := Tool(
    "get_download_url",
    "Get a download URL for an icon with custom color and size options. Supports SVG and PNG formats.",
    InputSchema([
      Property("icon_id", [NumberType], None, "The unique ID of the icon to download"),
      Property("color", [StringType], None, "Hexadecimal color value (e.g., \"FF0000\" for red)"),
      Property("filetype", [StringType], Some(Filetypes), "File format: svg or png"),
      Property("size", [NumberType], None, "For PNG, size in pixels (minimum 20, maximum 1200)")
    ], Some(["icon_id"])))

  const AllTools: seq<Tool> :=
    [SearchIconsTool, GetIconTool, GetCollectionTool, IconAutocompleteTool, CheckUsageTool, GetDownloadUrlTool]

  function ToolNames(ts: seq<Tool>): (names: seq<string>)
    ensures |names| == |ts|
    ensures forall i :: 0 <= i < |ts| ==> names[i] == ts[i].name
  {
    seq(|ts|, i requires 0 <= i < |ts| => ts[i].name)
  }

  function PropertyNames(s: InputSchema): (names: seq<string>)
    ensures |names| == |s.properties|
    ensures forall i :: 0 <= i < |names| ==> names[i] == s.properties[i].name
  {
    seq(|s.properties|, i requires 0 <= i < |s.properties| => s.properties[i].name)
  }

  /** Every required name is a declared property. */
  predicate RequiredDeclared(s: InputSchema) {
    s.required.Some? ==> forall r :: r in s.required.value ==> r in PropertyNames(s)
  }

  /** The enum a property of this name carries wherever it is declared. */
  function ExpectedEnum(name: string): Option<seq<JsValue>> {
    if name == "thumbnail_size" then Some(ThumbnailSizes)
    else if name == "limit_to_public_domain" || name == "include_svg" then Some(Flags)
    else if name == "styles" then Some(Styles)
    else if name == "filetype" then Some(Filetypes)
    else None
  }

  /** No name occurs twice. */
  predicate DistinctNames(names: seq<string>) {
    forall i, j :: 0 <= i < j < |names| ==> names[i] != names[j]
  }

  /** Each property carries the enum its name calls for, and no other. */
  predicate EnumsExpected(props: seq<Property>) {
    forall i :: 0 <= i < |props| ==> props[i].enumValues == ExpectedEnum(props[i].name)
  }

  /** The facts the table promises about each tool. */
  predicate WellFormed(t: Tool) {
    && RequiredDeclared(t.inputSchema)
    && DistinctNames(PropertyNames(t.inputSchema))
    && EnumsExpected(t.inputSchema.properties)
  }

  /** Well-formedness of a schema whose property names are known. */
  lemma SchemaWellFormed(t: Tool, names: seq<string>)
    requires PropertyNames(t.inputSchema) == names && DistinctNames(names)
    requires t.inputSchema.required.Some? ==> forall r :: r in t.inputSchema.required.value ==> r in names
    requires EnumsExpected(t.inputSchema.properties)
    ensures WellFormed(t)
  {
  }

  lemma SearchIconsToolWellFormed()
    ensures WellFormed(SearchIconsTool)
  {
    var names := SearchIconsNames();
    assert DistinctNames(names);
    SearchIconsEnums();
    SchemaWellFormed(SearchIconsTool, names);
  }

  lemma SearchIconsNames() returns (names: seq<string>)
    ensures names == ["query", "styles", "line_weight", "limit_to_public_domain", "thumbnail_size", "include_svg", "limit"]
    ensures PropertyNames(SearchIconsTool.inputSchema) == names
  {
    names := ["query", "styles", "line_weight", "limit_to_public_domain", "thumbnail_size", "include_svg", "limit"];
  }

  lemma SearchIconsEnums()
    ensures EnumsExpected(SearchIconsTool.inputSchema.properties)
  {
  }

  lemma GetIconToolWellFormed()
    ensures WellFormed(GetIconTool)
  {
    var names := ["icon_id", "thumbnail_size"];
    assert PropertyNames(GetIconTool.inputSchema) == names;
    GetIconEnums();
    SchemaWellFormed(GetIconTool, names);
  }

  lemma GetIconEnums()
    ensures EnumsExpected(GetIconTool.inputSchema.properties)
  {
  }

  lemma GetCollectionToolWellFormed()
    ensures WellFormed(GetCollectionTool)
  {
    var names := ["collection_id", "thumbnail_size", "include_svg", "limit"];
    assert PropertyNames(GetCollectionTool.inputSchema) == names;
    assert DistinctNames(names);
    GetCollectionEnums();
    SchemaWellFormed(GetCollectionTool, names);
  }

  lemma GetCollectionEnums()
    ensures EnumsExpected(GetCollectionTool.inputSchema.properties)
  {
  }

  lemma IconAutocompleteToolWellFormed()
    ensures WellFormed(IconAutocompleteTool)
  {
    var names := ["query", "limit"];
    assert PropertyNames(IconAutocompleteTool.inputSchema) == names;
    IconAutocompleteEnums();
    SchemaWellFormed(IconAutocompleteTool, names);
  }

  lemma IconAutocompleteEnums()
    ensures EnumsExpected(IconAutocompleteTool.inputSchema.properties)
  {
  }

  lemma CheckUsageToolWellFormed()
    ensures WellFormed(CheckUsageTool)
  {
  }

  lemma GetDownloadUrlToolWellFormed()
    ensures WellFormed(GetDownloadUrlTool)
  {
    var names := ["icon_id", "color", "filetype", "size"];
    assert PropertyNames(GetDownloadUrlTool.inputSchema) == names;
    assert DistinctNames(names);
    GetDownloadUrlEnums();
    SchemaWellFormed(GetDownloadUrlTool, names);
  }

  lemma GetDownloadUrlEnums()
    ensures EnumsExpected(GetDownloadUrlTool.inputSchema.properties)
  {
  }

  /** The six tool names, each once. */
  lemma ToolNamesDistinct()
    ensures ToolNames(AllTools) == ["search_icons", "get_icon", "get_collection", "icon_autocomplete",
                                    "check_usage", "get_download_url"]
    ensures forall i, j :: 0 <= i < j < |AllTools| ==> AllTools[i].name != AllTools[j].name
  {
  }

  /**
   * Six tools with distinct names; in each, every required name is declared,
   * no property is declared twice, and `thumbnail_size`, the 0/1 flags,
   * `styles` and `filetype` carry the same enum wherever they appear.
   */
  lemma ToolsWellFormed()
    ensures |AllTools| == 6
    ensures forall i, j :: 0 <= i < j < |AllTools| ==> AllTools[i].name != AllTools[j].name
    ensures forall i :: 0 <= i < |AllTools| ==> WellFormed(AllTools[i])
  {
    ToolNamesDistinct();
    SearchIconsToolWellFormed();
    GetIconToolWellFormed();
    GetCollectionToolWellFormed();
    IconAutocompleteToolWellFormed();
    CheckUsageToolWellFormed();
    GetDownloadUrlToolWellFormed();
  }

  /** `check_usage` declares no property and no `required` list. */
  lemma CheckUsageTakesNothing()
    ensures CheckUsageTool.inputSchema.properties == [] && CheckUsageTool.inputSchema.required.None?
  {
  }

  /** `search_icons` declares seven properties, only `query` required, and no paging cursors. */
  lemma SearchIconsSchema()
    ensures |SearchIconsTool.inputSchema.properties| == 7
    ensures SearchIconsTool.inputSchema.required == Some(["query"])
    ensures "next_page" !in PropertyNames(SearchIconsTool.inputSchema)
    ensures "prev_page" !in PropertyNames(SearchIconsTool.inputSchema)
  {
  }
}
