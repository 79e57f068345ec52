/**
 * `NounProjectOAuth`: consumer-only OAuth 1.0a request signing and the header
 * set sent with every request. The signature itself (HMAC-SHA1 over the
 * signature base string of RFC 5849 section 3.4, with a fresh nonce and
 * timestamp) is done by a library; here it is the `Signer` a caller supplies.
 */
module OAuth {

  /** A key and its secret, as the OAuth library takes them for consumer and token. */
  datatype Credentials = Credentials(key: string, secret: string)

  /** `OAuthConfig` */
  datatype OAuthConfig = OAuthConfig(apiKey: string, apiSecret: string)

  /** Everything one `authorize` call receives: the configured client and the request data. */
  datatype SignInput = SignInput(
    consumer: Credentials,
    signatureMethod: string,
    token: Credentials,
    url: string,
    verb: string)

  /**
   * One invocation of the library's `authorize` followed by `toHeader`: the
   * authorization headers for that input. Nonce and timestamp are chosen
   * inside the invocation, so two invocations may be two different signers.
   */
  type Signer = SignInput -> map<string, string>

  const EmptyToken := Credentials("", "")
  const HmacSha1 := "HMAC-SHA1"
  const ContentType := "Content-Type"
  const ApplicationJson := "application/json"

  /** The signer's state, fixed at construction and never updated. */
  datatype NounProjectOAuth = NounProjectOAuth(
    consumer: Credentials,
    signatureMethod: string,
    token: Credentials)
  {
    /** The input `getAuthHeaders` hands to the library for `url` and HTTP method `verb`. */
    function AuthorizeInput(url: string, verb: string := "GET"): (r: SignInput)
      ensures r.url == url && r.verb == verb
      ensures r.consumer == consumer && r.token == token && r.signatureMethod == signatureMethod
    {
      SignInput(consumer, signatureMethod, token, url, verb)
    }

    /** `getAuthHeaders(url, method = 'GET')` */
    function GetAuthHeaders(sign: Signer, url: string, verb: string := "GET"): map<string, string> {
      sign(AuthorizeInput(url, verb))
    }

    /**
     * `getHeaders(url, method = 'GET')`: the authorization headers with a fixed
     * `Content-Type` spread after them.
     */
    function GetHeaders(sign: Signer, url: string, verb: string := "GET"): (r: map<string, string>)
      ensures ContentType in r && r[ContentType] == ApplicationJson
      ensures r.Keys == GetAuthHeaders(sign, url, verb).Keys + {ContentType}
      ensures forall k :: k in GetAuthHeaders(sign, url, verb) && k != ContentType ==>
        r[k] == GetAuthHeaders(sign, url, verb)[k]
    {
      var auth := GetAuthHeaders(sign, url, verb);
      auth[ContentType := ApplicationJson]
    }
  }

  /** `new NounProjectOAuth(config)`: consumer credentials from the config, an empty token. */
  function NewOAuth(config: OAuthConfig): (o: NounProjectOAuth)
    ensures o.consumer == Credentials(config.apiKey, config.apiSecret)
    ensures o.token == Credentials("", "")
    ensures o.signatureMethod == "HMAC-SHA1"
  {
    NounProjectOAuth(Credentials(config.apiKey, config.apiSecret), HmacSha1, EmptyToken)
  }

  /**
   * Every signature a client made by `NewOAuth` asks for uses the configured
   * consumer, the empty token and exactly the URL and method of the request;
   * the method is GET when none is given.
   */
  lemma SignedWithConfiguredCredentials(config: OAuthConfig, url: string, verb: string)
    ensures var input := NewOAuth(config).AuthorizeInput(url, verb);
      && input.consumer.key == config.apiKey && input.consumer.secret == config.apiSecret
      && input.token.key == "" && input.token.secret == ""
      && input.url == url && input.verb == verb
    ensures NewOAuth(config).AuthorizeInput(url).verb == "GET"
  {
  }

  /** Omitting the method is the same as passing GET. */
  lemma GetHeadersDefaultsToGet(o: NounProjectOAuth, sign: Signer, url: string)
    ensures o.GetHeaders(sign, url) == o.GetHeaders(sign, url, "GET")
  {
  }

  /**
   * An authorization header named `Content-Type` is overridden; all other
   * authorization headers, and only those, are passed through.
   */
  lemma ContentTypeOverrides(o: NounProjectOAuth, sign: Signer, url: string, verb: string)
    ensures var auth := o.GetAuthHeaders(sign, url, verb);
      var h := o.GetHeaders(sign, url, verb);
      && h - {ContentType} == auth - {ContentType}
      && h[ContentType] == "application/json"
  {
    var auth := o.GetAuthHeaders(sign, url, verb);
    var h := o.GetHeaders(sign, url, verb);
    assert (h - {ContentType}).Keys == (auth - {ContentType}).Keys;
  }
}
