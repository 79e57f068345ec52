/**
 * `NounProjectAPI`: for each of the six operations, the URL that is signed,
 * the path handed to the HTTP client and the `params` object handed with it.
 * The HTTP call itself is left to the caller (see `Server`); `Issue` says
 * what the client is asked to send.
 */
module Api {
  import opened Wrappers
  import opened JsValues
  import opened FormUrlEncoded
  import OAuth

  const BaseUrl := "https://api.thenounproject.com"

  /** Keys of the TypeScript parameter interfaces; nothing checks them at run time. */
  const SearchIconsParamKeys := ["query", "styles", "line_weight", "limit_to_public_domain",
    "thumbnail_size", "include_svg", "limit", "next_page", "prev_page"]
  const GetIconParamKeys := ["icon_id", "thumbnail_size"]
  const GetCollectionParamKeys := ["collection_id", "thumbnail_size", "include_svg", "limit"]
  const AutocompleteParamKeys := ["query", "limit"]
  const DownloadIconParamKeys := ["icon_id", "color", "filetype", "size"]

  /** Literal types of the interfaces. */
  const StylesLiterals := ["solid", "line", "solid,line"]
  const FiletypeLiterals := ["svg", "png"]
  const ThumbnailSizeLiterals := [42, 84, 200]
  const FlagLiterals := [0, 1]

  /** The `params` object given to the HTTP client, as its ordered entries. */
  type Params = seq<(string, JsValue)>

  /** What one operation builds before anything is sent. */
  datatype Prepared = Prepared(signedUrl: string, path: string, params: Option<Params>)

  /** The arguments of `client.get(path, { params, headers })`. */
  datatype HttpGet = HttpGet(path: string, params: Option<Params>, headers: map<string, string>)

  datatype NounProjectApi = NounProjectApi(oauth: OAuth.NounProjectOAuth)

  /** `new NounProjectAPI(apiKey, apiSecret)`: no check on the credentials. */
  function NewApi(apiKey: string, apiSecret: string): (api: NounProjectApi)
    ensures api.oauth.consumer == OAuth.Credentials(apiKey, apiSecret)
    ensures api.oauth.token == OAuth.Credentials("", "")
  {
    NounProjectApi(OAuth.NewOAuth(OAuth.OAuthConfig(apiKey, apiSecret)))
  }

  /** `Object.fromEntries(queryParams)`: every value is a string. */
  function TextParams(ps: seq<(string, string)>): (r: Params)
    ensures |r| == |ps|
    ensures forall i :: 0 <= i < |ps| ==> r[i] == (ps[i].0, Str(ps[i].1))
  {
    seq(|ps|, i requires 0 <= i < |ps| => (ps[i].0, Str(ps[i].1)))
  }

  /** The key/value texts a params object stands for. */
  function ParamTexts(ps: Params): (r: seq<(string, string)>)
    ensures |r| == |ps|
    ensures forall i :: 0 <= i < |ps| ==> r[i] == (ps[i].0, ToText(ps[i].1))
  {
    seq(|ps|, i requires 0 <= i < |ps| => (ps[i].0, ToText(ps[i].1)))
  }

  lemma TextParamsShort(a: (string, string), b: (string, string))
    ensures TextParams([a]) == [(a.0, Str(a.1))]
    ensures TextParams([a, b]) == [(a.0, Str(a.1)), (b.0, Str(b.1))]
  {
  }

  lemma TextParamsTexts(ps: seq<(string, string)>)
    ensures ParamTexts(TextParams(ps)) == ps
    ensures Keys(TextParams(ps)) == Keys(ps)
  {
    assert Keys(TextParams(ps)) == Keys(ps);
  }

  /**
   * The signed URL is the base URL, then exactly the path sent, then, when a
   * params object is sent, `?` and a query that parses back to exactly the
   * params' key/value texts; with no params object there is no `?`.
   */
  predicate Agrees(p: Prepared) {
    var prefix := BaseUrl + p.path;
    match p.params
    case None => p.signedUrl == prefix
    case Some(ps) =>
      && |p.signedUrl| > |prefix|
      && p.signedUrl[..|prefix| + 1] == prefix + "?"
      && ParseQuery(p.signedUrl[|prefix| + 1..]) == Some(ParamTexts(ps))
  }

  /** A params object agrees with a URL whose query is the serialization of its texts. */
  lemma AgreesWithPairs(signedUrl: string, path: string, ps: Params, pairs: seq<(string, string)>)
    requires pairs != [] && ParamTexts(ps) == pairs
    requires signedUrl == BaseUrl + path + "?" + Serialize(pairs)
    ensures Agrees(Prepared(signedUrl, path, Some(ps)))
  {
    var prefix := BaseUrl + path;
    assert signedUrl[..|prefix| + 1] == prefix + "?";
    assert signedUrl[|prefix| + 1..] == Serialize(pairs);
    ParseSerialize(pairs);
  }

  lemma AgreesWithQuery(signedUrl: string, path: string, pairs: seq<(string, string)>)
    requires pairs != []
    requires signedUrl == BaseUrl + path + "?" + Serialize(pairs)
    ensures Agrees(Prepared(signedUrl, path, Some(TextParams(pairs))))
  {
    TextParamsTexts(pairs);
    AgreesWithPairs(signedUrl, path, TextParams(pairs), pairs);
  }

  lemma ConcatAssoc(a: string, b: string, c: string)
    ensures a + b + c == a + (b + c)
  {
  }

  /** The TypeError a destructuring of `undefined` arguments throws, as V8 words it. */
  function DestructureError(key: string): Thrown {
    ErrorObject("Cannot destructure property '" + key + "' of 'params' as it is undefined.")
  }

  /** The TypeError `params.query` throws when the arguments are `undefined`, as V8 words it. */
  const ReadQueryError := ErrorObject("Cannot read properties of undefined (reading 'query')")

  /** `searchIcons(params)` */
  function SearchIcons(args: Option<JsObject>): (r: Result<Prepared, Thrown>)
    ensures args.None? ==> r == Err(DestructureError("query"))
    ensures args.Some? ==> r.Ok? && r.value.path == "/v2/icon" && r.value.params.Some?
    ensures r.Ok? ==> Agrees(r.value)
    ensures r.Ok? ==>
      var o, ps := args.value, r.value.params.value;
      // `query` comes first, whatever its value, then the rest as the filter keeps them
      && |ps| >= 1 && ps[0] == ("query", Str(ToText(Get(o, "query"))))
      && QueryOf(o, "query", ps[1..])
  {
    match args
    case None => Err(DestructureError("query"))
    case Some(o) =>
      var rest := Stringified(Omit(o, "query"));
      var pairs := [("query", ToText(Get(o, "query")))] + rest;
      var queryParams := Serialize(pairs);
      var path := "/v2/icon";
      var p := Prepared(BaseUrl + path + "?" + queryParams, path, Some(TextParams(pairs)));
      AgreesWithQuery(p.signedUrl, p.path, pairs);
      StringifiedQueryOf(o, "query");
      assert TextParams(pairs)[1..] == TextParams(rest);
      Ok(p)
  }

  /** The paths built from an id: `/v2/icon/${icon_id}`, `/v2/collection/${collection_id}`, `.../download`. */
  function IconPath(id: JsValue): string {
    "/v2/icon/" + ToText(id)
  }

  function CollectionPath(id: JsValue): string {
    "/v2/collection/" + ToText(id)
  }

  function DownloadPath(id: JsValue): string {
    IconPath(id) + "/download"
  }

  /** `getIcon(params)` */
  function GetIcon(args: Option<JsObject>): (r: Result<Prepared, Thrown>)
    ensures args.None? ==> r == Err(DestructureError("icon_id"))
    ensures args.Some? ==> r.Ok?
    ensures r.Ok? ==>
      var o, p := args.value, r.value;
      var size := Get(o, "thumbnail_size");
      && p.path == IconPath(Get(o, "icon_id"))
      && (Truthy(size) ==>
            && p.signedUrl == BaseUrl + p.path + ("?" + "thumbnail_size" + "=" + ToText(size))
            && p.params == Some([("thumbnail_size", size)]))
      && (!Truthy(size) ==> p.signedUrl == BaseUrl + p.path && p.params == None)
  {
    match args
    case None => Err(DestructureError("icon_id"))
    case Some(o) =>
      var iconId := Get(o, "icon_id");
      var size := Get(o, "thumbnail_size");
      var queryParams := if Truthy(size) then "?" + "thumbnail_size" + "=" + ToText(size) else "";
      var path := IconPath(iconId);
      Ok(Prepared(BaseUrl + path + queryParams, path,
        if Truthy(size) then Some([("thumbnail_size", size)]) else None))
  }

  /** Text made only of characters the form encoding leaves alone. */
  predicate FormSafe(s: string) {
    forall i :: 0 <= i < |s| ==> IsUnreserved(s[i])
  }

  lemma NumberTextFormSafe(n: int)
    ensures FormSafe(NumberToText(n))
  {
  }

  /**
   * `getIcon` writes `thumbnail_size` into the signed URL without encoding it;
   * signed URL and params still agree whenever the value's text needs no
   * encoding, which holds for every number.
   */
  lemma GetIconAgrees(o: JsObject)
    requires FormSafe(ToText(Get(o, "thumbnail_size")))
    ensures Agrees(GetIcon(Some(o)).value)
  {
    var p := GetIcon(Some(o)).value;
    var size := Get(o, "thumbnail_size");
    if Truthy(size) {
      ThumbnailSizeKeySafe();
      AgreesWithRawPair(p.signedUrl, p.path, "thumbnail_size", size);
    } else {
      assert p.signedUrl == BaseUrl + p.path && p.params.None?;
    }
  }

  lemma ThumbnailSizeKeySafe()
    ensures FormSafe("thumbnail_size")
  {
    var k := "thumbnail_size";
    forall i | 0 <= i < |k| ensures IsUnreserved(k[i]) {
    }
  }

  /** A single pair written raw as `?key=text` agrees with the params object `{key: value}` when neither needs encoding. */
  lemma AgreesWithRawPair(signedUrl: string, path: string, key: string, value: JsValue)
    requires FormSafe(key) && FormSafe(ToText(value))
    requires signedUrl == BaseUrl + path + ("?" + key + "=" + ToText(value))
    ensures Agrees(Prepared(signedUrl, path, Some([(key, value)])))
  {
    var text := ToText(value);
    SerializeSafePair(key, text);
    QueryAssoc(BaseUrl + path, key, text);
    assert ParamTexts([(key, value)]) == [(key, text)];
    AgreesWithPairs(signedUrl, path, [(key, value)], [(key, text)]);
  }

  lemma SerializeSafePair(key: string, text: string)
    requires FormSafe(key) && FormSafe(text)
    ensures Serialize([(key, text)]) == key + "=" + text
  {
    EncodeUnreserved(key);
    EncodeUnreserved(text);
  }

  lemma QueryAssoc(a: string, key: string, text: string)
    ensures a + ("?" + key + "=" + text) == a + "?" + (key + "=" + text)
  {
    ConcatAssoc("?", key, "=");
    ConcatAssoc("?" + key, "=", text);
    ConcatAssoc("?", key + "=", text);
    ConcatAssoc(a, "?", key + "=" + text);
  }

  lemma GetIconNumberAgrees(o: JsObject)
    requires Get(o, "thumbnail_size").Num?
    ensures Agrees(GetIcon(Some(o)).value)
  {
    NumberTextFormSafe(Get(o, "thumbnail_size").n);
    GetIconAgrees(o);
  }

  /**
   * A string `thumbnail_size` holding `&` is signed as two query pairs while
   * the params object sends one: signed URL and request disagree.
   */
  lemma GetIconRawValueDisagrees()
    ensures !Agrees(GetIcon(Some([("icon_id", Num(7)), ("thumbnail_size", Str("42&x=1"))])).value)
  {
    var o: JsObject := [("icon_id", Num(7)), ("thumbnail_size", Str("42&x=1"))];
    var p := GetIcon(Some(o)).value;
    assert Get(o, "thumbnail_size") == Str("42&x=1");
    assert "42&x=1" == "42" + "&" + "x" + "=" + "1";
    ThumbnailSizeKeySafe();
    assert FormSafe("42") && FormSafe("x") && FormSafe("1");
    RawAmpersandDisagrees(p.signedUrl, p.path, "thumbnail_size", "42", "x", "1", Str("42&x=1"));
  }

  /** A raw value `a&b=c` after `?key=` reads back as two pairs, not as the one pair sent. */
  lemma RawAmpersandDisagrees(signedUrl: string, path: string, key: string, a: string, b: string, c: string,
                              value: JsValue)
    requires FormSafe(key) && FormSafe(a) && FormSafe(b) && FormSafe(c)
    requires ToText(value) == a + "&" + b + "=" + c
    requires signedUrl == BaseUrl + path + ("?" + key + "=" + ToText(value))
    ensures !Agrees(Prepared(signedUrl, path, Some([(key, value)])))
  {
    var prefix := BaseUrl + path;
    var text := ToText(value);
    QueryAssoc(prefix, key, text);
    assert signedUrl[|prefix| + 1..] == key + "=" + text;
    ParseTwoSafePairs(key, a, b, c);
  }

  /** `key=a&b=c` with nothing to decode parses as the two pairs `key=a` and `b=c`. */
  lemma ParseTwoSafePairs(key: string, a: string, b: string, c: string)
    requires FormSafe(key) && FormSafe(a) && FormSafe(b) && FormSafe(c)
    ensures ParseQuery(key + "=" + (a + "&" + b + "=" + c)) == Some([(key, a), (b, c)])
  {
    var pairs := [(key, a), (b, c)];
    SerializeSafePair(key, a);
    SerializeSafePair(b, c);
    assert Serialize(pairs[1..]) == Serialize([(b, c)]);
    assert Serialize(pairs) == (key + "=" + a) + "&" + (b + "=" + c);
    Regroup(key, a, b, c);
    ParseSerialize(pairs);
  }

  lemma Regroup(key: string, a: string, b: string, c: string)
    ensures key + "=" + (a + "&" + b + "=" + c) == (key + "=" + a) + "&" + (b + "=" + c)
  {
  }

  /** `getCollection(params)` */
  function GetCollection(args: Option<JsObject>): (r: Result<Prepared, Thrown>)
    ensures args.None? ==> r == Err(DestructureError("collection_id"))
    ensures args.Some? ==> r.Ok?
    ensures r.Ok? ==> Agrees(r.value)
    ensures r.Ok? ==>
      var o, p := args.value, r.value;
      && p.path == CollectionPath(Get(o, "collection_id"))
      // no `?` and no params object unless some other key has a defined value
      && (p.params.None? <==> NoneDefinedExcept(o, "collection_id"))
      && (p.params.Some? ==> QueryOf(o, "collection_id", p.params.value))
  {
    match args
    case None => Err(DestructureError("collection_id"))
    case Some(o) =>
      var path := CollectionPath(Get(o, "collection_id"));
      var p := WithOptionalQuery(o, "collection_id", path);
      Ok(p)
  }

  /** `autocomplete(params)` */
  function Autocomplete(args: Option<JsObject>): (r: Result<Prepared, Thrown>)
    ensures args.None? ==> r == Err(ReadQueryError)
    ensures args.Some? ==> r.Ok? && r.value.path == "/v2/icon/autocomplete"
    ensures r.Ok? ==> Agrees(r.value)
    ensures r.Ok? ==>
      var o, ps := args.value, r.value.params;
      var limit := Get(o, "limit");
      && ps.Some? && |ps.value| >= 1
      // `query` always, `limit` only when it is truthy, nothing else
      && ps.value[0] == ("query", Str(ToText(Get(o, "query"))))
      && (Truthy(limit) ==> ps.value == [ps.value[0], ("limit", Str(ToText(limit)))])
      && (!Truthy(limit) ==> ps.value == [ps.value[0]])
  {
    match args
    case None => Err(ReadQueryError)
    case Some(o) =>
      var limit := Get(o, "limit");
      var query := ("query", ToText(Get(o, "query")));
      var pairs := if Truthy(limit) then [query, ("limit", ToText(limit))] else [query];
      var path := "/v2/icon/autocomplete";
      TextParamsShort(query, ("limit", ToText(limit)));
      var p := Prepared(BaseUrl + path + "?" + Serialize(pairs), path, Some(TextParams(pairs)));
      AgreesWithQuery(p.signedUrl, p.path, pairs);
      Ok(p)
  }

  /** `checkUsage()`: a fixed URL, no query, no params object. */
  function CheckUsage(): (p: Prepared)
    ensures Agrees(p)
    ensures p.path == "/v2/oauth/usage" && p.params.None?
  {
    var path := "/v2/oauth/usage";
    Prepared(BaseUrl + path, path, None)
  }

  /** `getDownloadUrl(params)` */
  function GetDownloadUrl(args: Option<JsObject>): (r: Result<Prepared, Thrown>)
    ensures args.None? ==> r == Err(DestructureError("icon_id"))
    ensures args.Some? ==> r.Ok?
    ensures r.Ok? ==> Agrees(r.value)
    ensures r.Ok? ==>
      var o, p := args.value, r.value;
      && p.path == DownloadPath(Get(o, "icon_id"))
      && (p.params.None? <==> NoneDefinedExcept(o, "icon_id"))
      && (p.params.Some? ==> QueryOf(o, "icon_id", p.params.value))
  {
    match args
    case None => Err(DestructureError("icon_id"))
    case Some(o) =>
      var path := DownloadPath(Get(o, "icon_id"));
      Ok(WithOptionalQuery(o, "icon_id", path))
  }

  /**
   * `ps` holds exactly the keys of `o` other than `idKey` whose value is not
   * `undefined`, each once, in argument order, each with its value's text.
   */
  ghost predicate QueryOf(o: JsObject, idKey: string, ps: Params) {
    && (forall k :: k in Keys(ps) <==> k != idKey && Get(o, k) != Undefined)
    && (forall i :: 0 <= i < |ps| ==> ps[i].1 == Str(ToText(Get(o, ps[i].0))))
    && DistinctKeys(ps)
    && Subsequence(Keys(ps), Keys(o))
  }

  /** The filter-and-stringify step of `searchIcons`, `getCollection` and `getDownloadUrl` meets `QueryOf`. */
  lemma StringifiedQueryOf(o: JsObject, idKey: string)
    ensures QueryOf(o, idKey, TextParams(Stringified(Omit(o, idKey))))
  {
    var rest := Omit(o, idKey);
    var pairs := Stringified(rest);
    var ps := TextParams(pairs);
    TextParamsTexts(pairs);
    forall k ensures k in Keys(ps) <==> k != idKey && Get(o, k) != Undefined {
      if k != idKey {
        OmitGet(o, idKey, k);
      }
    }
    forall i | 0 <= i < |ps| ensures ps[i].1 == Str(ToText(Get(o, ps[i].0))) {
      assert Keys(ps)[i] == ps[i].0;
      OmitGet(o, idKey, ps[i].0);
    }
    SubsequenceTransitive(Keys(pairs), Keys(rest), Keys(o));
  }

  /**
   * What `getCollection` and `getDownloadUrl` share: the other entries with a
   * defined value, as text; `?` and a params object only when the query
   * string is not empty.
   */
  function WithOptionalQuery(o: JsObject, idKey: string, path: string): (p: Prepared)
    ensures p.path == path && Agrees(p)
    ensures p.params.None? <==> NoneDefinedExcept(o, idKey)
    ensures p.params.Some? ==> QueryOf(o, idKey, p.params.value)
  {
    var rest := Omit(o, idKey);
    var pairs := Stringified(rest);
    var queryString := Serialize(pairs);
    var p := Prepared(if queryString != "" then BaseUrl + path + "?" + queryString else BaseUrl + path, path,
      if queryString != "" then Some(TextParams(pairs)) else None);
    StringifiedEmpty(rest);
    OmitNoneDefined(o, idKey);
    StringifiedQueryOf(o, idKey);
    if queryString != "" then
      AgreesWithQuery(p.signedUrl, p.path, pairs);
      p
    else
      p
  }

  /** `limit: 0` is kept as the text `0` by `searchIcons`, which drops only `undefined`. */
  lemma SearchKeepsZeroLimit(o: JsObject)
    requires Get(o, "limit") == Num(0)
    ensures var ps := SearchIcons(Some(o)).value.params.value;
      && "limit" in Keys(ps)
      && forall i :: 0 <= i < |ps| && ps[i].0 == "limit" ==> ps[i].1 == Str("0")
  {
    var ps := SearchIcons(Some(o)).value.params.value;
    KeptAfterFirst(o, "query", ps, "limit");
  }

  /** A defined key other than the first one's shows up after it, with its value's text. */
  lemma KeptAfterFirst(o: JsObject, first: string, ps: Params, k: string)
    requires |ps| >= 1 && ps[0].0 == first && QueryOf(o, first, ps[1..])
    requires k != first && Get(o, k) != Undefined
    ensures k in Keys(ps)
    ensures forall i :: 0 <= i < |ps| && ps[i].0 == k ==> ps[i].1 == Str(ToText(Get(o, k)))
  {
    assert k in Keys(ps[1..]);
    assert Keys(ps[1..]) == Keys(ps)[1..];
    forall i | 0 <= i < |ps| && ps[i].0 == k ensures ps[i].1 == Str(ToText(Get(o, k))) {
      assert ps[1..][i - 1] == ps[i];
    }
  }

  /** `limit: 0` is dropped by `autocomplete`, which tests truthiness. */
  lemma AutocompleteDropsZeroLimit(o: JsObject)
    requires Get(o, "limit") == Num(0)
    ensures Autocomplete(Some(o)).value.params == Some([("query", Str(ToText(Get(o, "query"))))])
  {
  }

  /** `autocomplete` reads `query` and `limit` and nothing else. */
  lemma AutocompleteReadsQueryAndLimit(o1: JsObject, o2: JsObject)
    requires Get(o1, "query") == Get(o2, "query") && Get(o1, "limit") == Get(o2, "limit")
    ensures Autocomplete(Some(o1)) == Autocomplete(Some(o2))
  {
  }

  /** A path that ends in the id: `prefix` then the id's decimal text, which reads back as the id. */
  predicate EmbedsId(path: string, prefix: string, n: int) {
    && |path| > |prefix|
    && path[..|prefix|] == prefix
    && IsNumberText(path[|prefix|..])
    && TextToNumber(path[|prefix|..]) == n
  }

  lemma EmbedsNumber(prefix: string, n: int)
    ensures EmbedsId(prefix + NumberToText(n), prefix, n)
  {
    var path := prefix + NumberToText(n);
    NumberToTextRoundTrip(n);
    assert path[|prefix|..] == NumberToText(n);
  }

  /** Numeric ids are embedded in the paths in decimal; the download path extends the icon path. */
  lemma PathsEmbedIds(n: int)
    ensures EmbedsId(IconPath(Num(n)), "/v2/icon/", n)
    ensures EmbedsId(CollectionPath(Num(n)), "/v2/collection/", n)
    ensures DownloadPath(Num(n)) == IconPath(Num(n)) + "/download"
  {
    EmbedsNumber("/v2/icon/", n);
    EmbedsNumber("/v2/collection/", n);
  }

  /**
   * Hands a prepared request to the HTTP client: headers signed for exactly
   * the signed URL with GET, path and params passed unchanged.
   */
  function Issue(api: NounProjectApi, sign: OAuth.Signer, p: Prepared): (h: HttpGet)
    ensures h.path == p.path && h.params == p.params
    ensures h.headers == api.oauth.GetHeaders(sign, p.signedUrl, "GET")
    ensures h.headers[OAuth.ContentType] == "application/json"
  {
    HttpGet(p.path, p.params, api.oauth.GetHeaders(sign, p.signedUrl))
  }
}
