/**
 * The tool server: the credential check done before serving, the list-tools
 * handler, and the call-tool handler, which dispatches a tool name to an API
 * operation and turns whatever that operation throws into an error result.
 * The HTTP exchange and `JSON.stringify` are parameters of the handler.
 */
module Server {
  import opened Wrappers
  import opened JsValues
  import opened Api
  import Tools
  import OAuth

  const ApiKeyVariable := "NOUN_PROJECT_API_KEY"
  const ApiSecretVariable := "NOUN_PROJECT_API_SECRET"
  const MissingCredentialsMessage := "Error: NOUN_PROJECT_API_KEY and NOUN_PROJECT_API_SECRET must be set"

  /** How start-up ends: exit with a code after logging a message, or serve with a client. */
  datatype Startup = Exit(code: int, message: string) | Serve(api: NounProjectApi)

  /** Start-up with the process environment `env` (a variable that is not set is not a key). */
  function Start(env: map<string, string>): (r: Startup)
    ensures r.Serve? <==>
      ApiKeyVariable in env && env[ApiKeyVariable] != "" && ApiSecretVariable in env && env[ApiSecretVariable] != ""
    ensures r.Serve? ==>
      && r.api.oauth.consumer == OAuth.Credentials(env[ApiKeyVariable], env[ApiSecretVariable])
      && r.api.oauth.token == OAuth.Credentials("", "")
    ensures r.Exit? ==> r.code == 1 && r.message == MissingCredentialsMessage
  {
    var key := if ApiKeyVariable in env then env[ApiKeyVariable] else "";
    var secret := if ApiSecretVariable in env then env[ApiSecretVariable] else "";
    if key == "" || secret == "" then Exit(1, MissingCredentialsMessage)
    else Serve(NewApi(key, secret))
  }

  /** The operations the call-tool switch knows. */
  datatype Operation =
    | SearchIconsOp | GetIconOp | GetCollectionOp | IconAutocompleteOp | CheckUsageOp | GetDownloadUrlOp

  function OperationName(op: Operation): string {
    match op
    case SearchIconsOp => "search_icons"
    case GetIconOp => "get_icon"
    case GetCollectionOp => "get_collection"
    case IconAutocompleteOp => "icon_autocomplete"
    case CheckUsageOp => "check_usage"
    case GetDownloadUrlOp => "get_download_url"
  }

  /** The `switch (name)`: the operation a tool name selects, if any. */
  function Route(name: string): (r: Option<Operation>)
    ensures r.Some? ==> OperationName(r.value) == name
    ensures r.None? ==> forall op :: OperationName(op) != name
  {
    if name == "search_icons" then Some(SearchIconsOp)
    else if name == "get_icon" then Some(GetIconOp)
    else if name == "get_collection" then Some(GetCollectionOp)
    else if name == "icon_autocomplete" then Some(IconAutocompleteOp)
    else if name == "check_usage" then Some(CheckUsageOp)
    else if name == "get_download_url" then Some(GetDownloadUrlOp)
    else None
  }

  /** Each operation's name selects that operation and no other. */
  lemma RouteOperationName(op: Operation)
    ensures Route(OperationName(op)) == Some(op)
  {
  }

  /** The API method each case calls; `check_usage` passes no arguments. */
  function Prepare(op: Operation, args: Option<JsObject>): Result<Prepared, Thrown> {
    match op
    case SearchIconsOp => SearchIcons(args)
    case GetIconOp => GetIcon(args)
    case GetCollectionOp => GetCollection(args)
    case IconAutocompleteOp => Autocomplete(args)
    case CheckUsageOp => Ok(CheckUsage())
    case GetDownloadUrlOp => GetDownloadUrl(args)
  }

  /** What the HTTP client's promise settles to: the response body, or a thrown value. */
  datatype Outcome<T> = Returned(data: T) | Threw(thrown: Thrown)

  datatype Content = TextContent(text: string)

  /** A call-tool result; `isError` false stands for a result without the `isError` key. */
  datatype CallToolResult = CallToolResult(content: seq<Content>, isError: bool)

  const ErrorPrefix := "Error: "
  const UnknownErrorMessage := "Unknown error occurred"

  /** The `catch` block. */
  function ErrorResult(e: Thrown): (r: CallToolResult)
    ensures r.isError && |r.content| == 1
    ensures e.ErrorObject? ==> r.content[0].text == "Error: " + e.message
    ensures e.NonError? ==> r.content[0].text == "Error: Unknown error occurred"
  {
    var message := match e
      case ErrorObject(m) => m
      case NonError => UnknownErrorMessage;
    CallToolResult([TextContent(ErrorPrefix + message)], true)
  }

  /** A case's `return`: one text item holding the stringified body, no error flag. */
  function SuccessResult(text: string): (r: CallToolResult)
    ensures !r.isError && r.content == [TextContent(text)]
  {
    CallToolResult([TextContent(text)], false)
  }

  /**
   * One case of the switch after its API method has prepared the request:
   * anything thrown, before or during the HTTP call, becomes an error result;
   * a returned body becomes one text item and no error flag.
   */
  function Complete<T>(api: NounProjectApi, sign: OAuth.Signer, prepared: Result<Prepared, Thrown>,
                       send: HttpGet -> Outcome<T>, stringify: T -> string): (r: CallToolResult)
    ensures prepared.Err? ==> r == ErrorResult(prepared.error)
    ensures prepared.Ok? ==>
      var outcome := send(Issue(api, sign, prepared.value));
      && (outcome.Threw? ==> r == ErrorResult(outcome.thrown))
      && (outcome.Returned? ==> !r.isError && r.content == [TextContent(stringify(outcome.data))])
  {
    match prepared
    case Err(e) => ErrorResult(e)
    case Ok(p) =>
      match send(Issue(api, sign, p))
      case Threw(e) => ErrorResult(e)
      case Returned(data) => SuccessResult(stringify(data))
  }

  /**
   * The call-tool handler. `send` is the HTTP exchange for one request,
   * `stringify` is `JSON.stringify(result, null, 2)`, `sign` is the signing
   * done for this call.
   */
  function CallTool<T>(api: NounProjectApi, sign: OAuth.Signer, name: string, args: Option<JsObject>,
                       send: HttpGet -> Outcome<T>, stringify: T -> string): (r: CallToolResult)
    ensures |r.content| == 1
    ensures Route(name).None? ==> r == ErrorResult(ErrorObject("Unknown tool: " + name))
    ensures Route(name).Some? ==> r == Complete(api, sign, Prepare(Route(name).value, args), send, stringify)
  {
    match Route(name)
    case None => ErrorResult(ErrorObject("Unknown tool: " + name))
    case Some(op) => Complete(api, sign, Prepare(op, args), send, stringify)
  }

  /** An unknown tool name yields exactly `Error: Unknown tool: <name>`, flagged as an error. */
  lemma UnknownToolIsError<T>(api: NounProjectApi, sign: OAuth.Signer, name: string, args: Option<JsObject>,
                              send: HttpGet -> Outcome<T>, stringify: T -> string)
    requires forall op :: OperationName(op) != name
    ensures var r := CallTool(api, sign, name, args, send, stringify);
      r.isError && r.content == [TextContent("Error: Unknown tool: " + name)]
  {
    ConcatAssoc(ErrorPrefix, "Unknown tool: ", name);
    assert ErrorPrefix + "Unknown tool: " == "Error: Unknown tool: ";
    assert CallTool(api, sign, name, args, send, stringify) == ErrorResult(ErrorObject("Unknown tool: " + name));
  }

  /** Each of the six names runs its own API method's case and nothing else. */
  lemma DispatchMatchesName<T>(api: NounProjectApi, sign: OAuth.Signer, op: Operation, args: Option<JsObject>,
                               send: HttpGet -> Outcome<T>, stringify: T -> string)
    ensures CallTool(api, sign, OperationName(op), args, send, stringify)
         == Complete(api, sign, Prepare(op, args), send, stringify)
  {
    RouteOperationName(op);
  }

  /** `check_usage` ignores its arguments, even `undefined` ones. */
  lemma CheckUsageIgnoresArguments<T>(api: NounProjectApi, sign: OAuth.Signer, a: Option<JsObject>,
                                      b: Option<JsObject>, send: HttpGet -> Outcome<T>, stringify: T -> string)
    ensures CallTool(api, sign, "check_usage", a, send, stringify)
         == CallTool(api, sign, "check_usage", b, send, stringify)
  {
    RouteOperationName(CheckUsageOp);
  }

  /** Arguments that are `undefined` make every tool but `check_usage` report the TypeError. */
  lemma UndefinedArgumentsAreErrors<T>(api: NounProjectApi, sign: OAuth.Signer, op: Operation,
                                       send: HttpGet -> Outcome<T>, stringify: T -> string)
    requires op != CheckUsageOp
    ensures CallTool(api, sign, OperationName(op), None, send, stringify).isError
  {
    RouteOperationName(op);
  }

  /**
   * The request a case hands to `send` carries headers signed for exactly one
   * URL, and that URL agrees with the path and params sent: always for five
   * operations, and for `get_icon` when its `thumbnail_size` text needs no encoding.
   */
  lemma SentRequestAgrees(api: NounProjectApi, sign: OAuth.Signer, op: Operation, args: Option<JsObject>)
    requires Prepare(op, args).Ok?
    requires op == GetIconOp && args.Some? ==> FormSafe(ToText(Get(args.value, "thumbnail_size")))
    ensures var p := Prepare(op, args).value;
      var h := Issue(api, sign, p);
      && h.headers == api.oauth.GetHeaders(sign, p.signedUrl, "GET")
      && Agrees(Prepared(p.signedUrl, h.path, h.params))
  {
    if op == GetIconOp {
      GetIconAgrees(args.value);
    }
  }

  datatype ListToolsResult = ListToolsResult(tools: seq<Tools.Tool>)

  /** The list-tools handler. */
  function ListTools(): (r: ListToolsResult)
    ensures r.tools == Tools.AllTools
  {
    ListToolsResult(Tools.AllTools)
  }

  /** The names in the tool table are exactly the names the switch handles. */
  lemma ToolTableMatchesSwitch()
    ensures forall i :: 0 <= i < |Tools.AllTools| ==> Route(Tools.AllTools[i].name).Some?
    ensures forall op :: OperationName(op) in Tools.ToolNames(Tools.AllTools)
  {
    Tools.ToolNamesDistinct();
    forall op ensures OperationName(op) in Tools.ToolNames(Tools.AllTools) {
      match op
      case SearchIconsOp => assert Tools.ToolNames(Tools.AllTools)[0] == OperationName(op);
      case GetIconOp => assert Tools.ToolNames(Tools.AllTools)[1] == OperationName(op);
      case GetCollectionOp => assert Tools.ToolNames(Tools.AllTools)[2] == OperationName(op);
      case IconAutocompleteOp => assert Tools.ToolNames(Tools.AllTools)[3] == OperationName(op);
      case CheckUsageOp => assert Tools.ToolNames(Tools.AllTools)[4] == OperationName(op);
      case GetDownloadUrlOp => assert Tools.ToolNames(Tools.AllTools)[5] == OperationName(op);
    }
  }

  /**
   * Each schema declares the keys of its operation's parameter interface,
   * except that `search_icons` leaves out the paging cursors `next_page` and
   * `prev_page`, which `searchIcons` still accepts.
   */
  lemma SchemasMatchParameterInterfaces()
    ensures Tools.PropertyNames(Tools.SearchIconsTool.inputSchema) + ["next_page", "prev_page"] == SearchIconsParamKeys
    ensures Tools.PropertyNames(Tools.GetIconTool.inputSchema) == GetIconParamKeys
    ensures Tools.PropertyNames(Tools.GetCollectionTool.inputSchema) == GetCollectionParamKeys
    ensures Tools.PropertyNames(Tools.IconAutocompleteTool.inputSchema) == AutocompleteParamKeys
    ensures Tools.PropertyNames(Tools.GetDownloadUrlTool.inputSchema) == DownloadIconParamKeys
  {
  }

  /** The schema enums are the literal types of the parameter interfaces. */
  lemma EnumsMatchLiteralTypes()
    ensures Tools.Styles == seq(|StylesLiterals|, i requires 0 <= i < |StylesLiterals| => Str(StylesLiterals[i]))
    ensures Tools.Filetypes == seq(|FiletypeLiterals|, i requires 0 <= i < |FiletypeLiterals| => Str(FiletypeLiterals[i]))
    ensures Tools.ThumbnailSizes
      == seq(|ThumbnailSizeLiterals|, i requires 0 <= i < |ThumbnailSizeLiterals| => Num(ThumbnailSizeLiterals[i]))
    ensures Tools.Flags == seq(|FlagLiterals|, i requires 0 <= i < |FlagLiterals| => Num(FlagLiterals[i]))
  {
  }
}
