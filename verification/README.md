# noun-project-mcp, modelled in Dafny

noun-project-mcp is a tool server speaking the Model Context Protocol over stdio. It exposes six
operations of The Noun Project's REST API (`search_icons`, `get_icon`, `get_collection`,
`icon_autocomplete`, `check_usage`, `get_download_url`) as tools. Each tool call turns into one
signed GET request against `https://api.thenounproject.com`. The request is signed with
consumer-only OAuth 1.0a (HMAC-SHA1, empty token).

This project models the request-building and dispatch logic around that client:

- js_values.dfy, module `JsValues`: the JavaScript values that tool arguments carry after the
  `as any` cast. It covers `String(v)`, truthiness, property reads, `{ k, ...rest }`
  destructuring, and the `Object.entries(...).filter(v !== undefined).map(String)` step.
- form_urlencoded.dfy, module `FormUrlEncoded`: the application/x-www-form-urlencoded serializer of
  section 5.2 of the WHATWG URL Standard, which `URLSearchParams` uses. It is paired with a strict
  decoder. The decoder is only there to state that serialization loses nothing.
- oauth.dfy, module `OAuth`, modelling src/oauth.ts: the signer's fixed state and the header merge of `getHeaders`. The signature
  itself is a function-valued parameter.
- api.dfy, module `Api`, modelling src/api.ts: for each operation, three things: the URL that is signed, the path given to the
  HTTP client and the `params` object given with it. It also covers the error each operation throws
  when the arguments are `undefined`.
- tools.dfy, module `Tools`, modelling src/tools.ts: the `TOOLS` table as a datatype value.
- server.dfy, module `Server`, modelling src/index.ts: the start-up credential check, the list-tools handler and the call-tool
  handler. The call-tool handler is a switch plus a catch that maps every thrown value to an
  error result. The HTTP exchange and `JSON.stringify` are parameters of the handler.

The central property is agreement between the signed URL and the request sent (`Api.Agrees`).
The signed URL is the base URL, then exactly the path sent, then `?` and a query only when a params
object is sent. That query parses back to exactly the params' key/value pairs. Five operations
always agree. `getIcon` agrees only when the `thumbnail_size` text needs no encoding
(`Api.GetIconAgrees`), which covers every number. `Server.SentRequestAgrees` states this for the
request each case hands to the HTTP client.

Three behaviours of the code to keep in mind:

- The API client does not reject empty credentials. Only the start-up check refuses to serve without
  both environment variables.
- Error texts are `Error: ` followed by the thrown message. They do not name the failing operation.
- `getIcon` writes `thumbnail_size` into the signed URL without encoding it.

## Model

| member | source | states |
|---|---|---|
| `JsValues.NumberToTextRoundTrip` | src/api.ts:64 | `String(n)` of a safe integer is decimal text that reads back as `n`, so `0` and other such numbers survive as text |
| `JsValues.Omit` | src/api.ts:58 | the `rest` of `{ k, ...rest }` has exactly the object's keys other than `k`, including `undefined`-valued ones; it agrees with the object on every other key and keeps the object's order |
| `JsValues.Stringified` | src/api.ts:62-64 | exactly the keys whose value is not `undefined` are kept, each once, in the object's order, each with `String(value)` |
| `JsValues.StringifiedEmpty` | src/api.ts:103-111 | the filtered entry list is empty exactly when every value of the object is `undefined` |
| `JsValues.OmitNoneDefined` | src/api.ts:102-108 | after removing the id key, nothing is defined exactly when nothing but the id was defined |
| `FormUrlEncoded.Encode` | src/api.ts:59-66 | the form-urlencoded text of a name or value uses only unreserved characters, `+` and `%`, so it never holds `&`, `=` or `?` |
| `FormUrlEncoded.DecodeEncode` | src/api.ts:59-66 | decoding the form-urlencoded text of a string (UTF-8, `%XX`, space as `+`) gives the string back |
| `FormUrlEncoded.EncodeInjective` | src/api.ts:59-66 | two different strings never encode to the same text |
| `FormUrlEncoded.Serialize` | src/api.ts:111-114 | the serialized query is empty exactly when there are no pairs, which decides whether `?` is appended |
| `FormUrlEncoded.ParseSerialize` | src/api.ts:59-68 | splitting a serialized query at `&` and `=` and decoding gives back exactly the pairs, in order |
| `OAuth.NewOAuth` | src/oauth.ts:13-33 | the signer takes the configured key and secret as consumer credentials, HMAC-SHA1, and a fixed empty token |
| `OAuth.NounProjectOAuth.AuthorizeInput` | src/oauth.ts:38-46 | `getAuthHeaders` forwards `url` and the method unchanged, with the stored consumer and token, and the method defaults to GET |
| `OAuth.NounProjectOAuth.GetHeaders` | src/oauth.ts:55-60 | the headers map `Content-Type` to `application/json`; their keys are the auth headers' keys plus `Content-Type`; every other auth header passes through unchanged |
| `OAuth.SignedWithConfiguredCredentials` | src/oauth.ts:13-46 | every signing request made through a constructed signer uses the configured consumer, the empty token, and exactly the given URL and method (GET when none is given) |
| `OAuth.GetHeadersDefaultsToGet` | src/oauth.ts:55 | `getHeaders(url)` is `getHeaders(url, 'GET')` |
| `OAuth.ContentTypeOverrides` | src/oauth.ts:56-59 | `Content-Type` is spread after the auth headers, so it overrides a same-named auth header; apart from that key the result equals the auth headers |
| `Api.NewApi` | src/api.ts:46-52 | the client's signer holds the given key and secret as consumer and an empty token; nothing is checked |
| `Api.SearchIcons` | src/api.ts:57-77 | path `/v2/icon`; `query` first (even when `undefined`), then exactly the other defined keys in argument order with their text; signed URL and params agree; `undefined` arguments throw the destructuring TypeError |
| `Api.GetIcon` | src/api.ts:82-96 | path `/v2/icon/{icon_id}`; `?thumbnail_size=<text>` and params `{thumbnail_size}` exactly when `thumbnail_size` is truthy, otherwise no `?` and no params |
| `Api.GetIconAgrees` | src/api.ts:83-93 | the signed URL and the params of `getIcon` agree whenever the `thumbnail_size` text needs no encoding |
| `Api.GetIconNumberAgrees` | src/api.ts:83-93 | the signed URL and the params of `getIcon` agree for every numeric `thumbnail_size` |
| `Api.GetIconRawValueDisagrees` | src/api.ts:84-91 | a string `thumbnail_size` such as `42&x=1` is signed as two query pairs but sent as one param |
| `Api.GetCollection` | src/api.ts:101-123 | path `/v2/collection/{collection_id}`; no `?` and no params exactly when no other key is defined; otherwise the params are exactly the defined keys in order, and the signed URL agrees with them |
| `Api.Autocomplete` | src/api.ts:128-143 | path `/v2/icon/autocomplete`; params are `query` and, only when `limit` is truthy, `limit`; the signed URL agrees |
| `Api.CheckUsage` | src/api.ts:148-157 | the fixed URL `BASE_URL/v2/oauth/usage`, no query, no params |
| `Api.GetDownloadUrl` | src/api.ts:162-184 | path `/v2/icon/{icon_id}/download`; no `?` and no params exactly when no other key is defined; the signed URL agrees with the params |
| `Api.WithOptionalQuery` | src/api.ts:103-119 | the query string is built from the filtered entries; `?` and a params object appear only when that string is non-empty, and then the two agree |
| `Api.StringifiedQueryOf` | src/api.ts:163-169 | the filtered, stringified entries are exactly the defined keys other than the id, each once, in argument order, with their text |
| `Api.SearchKeepsZeroLimit` | src/api.ts:62-64 | `limit: 0` is sent by `searchIcons` as the text `0` |
| `Api.AutocompleteDropsZeroLimit` | src/api.ts:129-132 | `limit: 0` is dropped by `autocomplete`, which sends only `query` |
| `Api.AutocompleteReadsQueryAndLimit` | src/api.ts:129-132 | `autocomplete` depends only on `query` and `limit` |
| `Api.PathsEmbedIds` | src/api.ts:87-178 | a safe-integer id appears in the icon and collection paths as decimal text that reads back as the id; the download path is the icon path followed by `/download` |
| `Api.Issue` | src/api.ts:69-74 | the HTTP call gets the prepared path and params unchanged, with headers signed for exactly the signed URL and GET |
| `Tools.ToolsWellFormed` | src/tools.ts:3-154 | six tools with distinct names; in every tool each required name is a declared property, no property is declared twice, and each enum is the fixed domain for its property name |
| `Tools.ToolNamesDistinct` | src/tools.ts:3-154 | the tool names are exactly the six names, in order, each once |
| `Tools.CheckUsageTakesNothing` | src/tools.ts:117-125 | `check_usage` declares no properties and no `required` list |
| `Tools.SearchIconsSchema` | src/tools.ts:4-48 | `search_icons` declares seven properties, only `query` is required, and there is no `next_page` or `prev_page` |
| `Server.Start` | src/index.ts:17-26 | serving starts exactly when both variables are set and non-empty, with those values as consumer credentials; otherwise exit code 1 with the logged message |
| `Server.Route` | src/index.ts:53-127 | a name selects an operation only when it is that operation's name; every other name selects nothing |
| `Server.RouteOperationName` | src/index.ts:53-114 | each of the six names selects its own operation |
| `Server.ErrorResult` | src/index.ts:129-140 | a thrown `Error` gives `isError` and one text item `Error: <message>`; any other thrown value gives `Error: Unknown error occurred` |
| `Server.SuccessResult` | src/index.ts:56-63 | a successful call gives exactly one text item and no error flag |
| `Server.Complete` | src/index.ts:54-63 | whatever an operation throws, before or during the HTTP call, becomes an error result; a returned body becomes one text item with its stringified form |
| `Server.SentRequestAgrees` | src/index.ts:54-114 | the request a case hands to the HTTP client has headers signed for exactly the signed URL with GET, and that URL agrees with the path and params sent; for `get_icon` this needs a `thumbnail_size` text that needs no encoding |
| `Server.CallTool` | src/index.ts:49-142 | the handler always returns exactly one content item; an unknown name gives the unknown-tool error; a known name runs its operation's case |
| `Server.UnknownToolIsError` | src/index.ts:126-140 | any name outside the six gives `isError` and exactly `Error: Unknown tool: <name>` |
| `Server.DispatchMatchesName` | src/index.ts:53-124 | each tool name runs exactly its matching API method |
| `Server.CheckUsageIgnoresArguments` | src/index.ts:102-103 | `check_usage` gives the same result whatever its arguments |
| `Server.UndefinedArgumentsAreErrors` | src/index.ts:49-142 | with `undefined` arguments every tool except `check_usage` reports an error instead of crashing |
| `Server.ListTools` | src/index.ts:42-46 | the list-tools handler returns the tool table unchanged |
| `Server.ToolTableMatchesSwitch` | src/tools.ts:3-154 | every tool in the table is handled by the switch, and every name the switch handles is in the table |
| `Server.SchemasMatchParameterInterfaces` | src/api.ts:6-40 | each schema declares its parameter interface's keys; `search_icons` leaves out `next_page` and `prev_page` |
| `Server.EnumsMatchLiteralTypes` | src/api.ts:8-38 | the `styles`, `filetype`, `thumbnail_size` and flag enums of the schemas are the literal types of the interfaces |

## Left out

- The OAuth 1.0a signature itself (HMAC-SHA1 over the signature base string of RFC 5849 section 3.4), and the nonce and timestamp it adds. One `OAuth.Signer` value stands for one signing call, so the model makes no claim that signing is deterministic.
- The axios client: base URL, the 30-second timeout, the network exchange and `response.data`. The exchange is the `send` parameter of `Server.CallTool`. Axios serializes `params` itself, so the model claims agreement of path and key/value pairs, not byte equality of the URL sent.
- MCP server construction, the stdio transport, `dotenv`, `main`, logging and `process.exit`. `Server.Start` only returns the exit code and message.
- `JSON.stringify(result, null, 2)`: it is the `stringify` parameter.
- Asynchrony and concurrent calls. No state is shared between calls.
- Argument validation against the schemas: the code does none, and the model adds none.
- `JsValue` numbers stand for safe integers. The model leaves out fractions, `NaN`, infinities and `-0`. It also leaves out integral numbers of magnitude 2^53 or more, including the exponent form `String` uses from 10^21 on (`1e+21`). Objects, arrays and BigInts as argument values are left out too.
- Keys that are array indices (`"0"`, `"1"`, …). JavaScript lists them before other keys in an object; the model keeps every key in insertion order.
- Lone UTF-16 surrogates in strings. `URLSearchParams` replaces them with U+FFFD; Dafny strings cannot hold them.
- The exact wording of the TypeErrors thrown for `undefined` arguments is the V8 engine's, not the program's.
- Api.GetIconAgrees: agreement of signed URL and params is proved only for `thumbnail_size` values whose text needs no encoding, such as every number. `getIcon` signs the value raw, and `Api.GetIconRawValueDisagrees` exhibits a string value for which the two differ.
- The tool descriptions are carried as data. Nothing is proved about their wording.
