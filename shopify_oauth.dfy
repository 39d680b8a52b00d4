/** The install side of the Shopify OAuth 2.0 authorization-code flow
    (RFC 6749 section 4.1): the `/install` handler, which redirects the
    merchant to the shop's authorization page, and the `/callback` handler,
    which checks the HMAC of the provider's redirect and only then exchanges
    the authorization code for an access token.

    The collaborators that cannot be modelled are parameters: the random
    nonce, HMAC-SHA256 (`mac`), `querystring.stringify` (`stringify`) and
    the HTTP client's POST (`post`). */
module ShopifyOAuth {
  import opened JsRuntime
  import opened NodeBuffer

  /** CONFIG: the application's settings, read once from the environment. */
  datatype Config = Config(baseUrl: string, apiKey: string, apiSecret: string, scopes: seq<string>)

  /** Builds CONFIG from BASE_URL, SHOPIFY_API_KEY, SHOPIFY_API_SECRET and
      SHOPIFY_SCOPES; the scope list is the last one split on single spaces. */
  function LoadConfig(baseUrl: string, apiKey: string, apiSecret: string, scopesEnv: string): Config
  {
    Config(baseUrl, apiKey, apiSecret, Split(scopesEnv, ' '))
  }

  /** `request.query`: parameter names to values. */
  type Query = map<string, string>

  /** `request.query[name]`: None stands for `undefined`. */
  function Param(query: Query, name: string): Option<string>
  {
    if name in query then Some(query[name]) else None
  }

  /** The JSON object the token endpoint answers with, handed to the template as it is. */
  type JsonObject = map<string, string>

  /** What a handler makes the server send. */
  datatype Reply =
    | Redirect(status: nat, location: string)    // reply.redirect(status, location)
    | Send(status: nat, body: string)            // reply.status(status).send(body)
    | View(template: string, data: JsonObject)   // reply.view(template, data), status 200

  const MissingShopText := "Missing shop parameter. Please add ?shop=storilabs.myshopify.com to your request"
  const MissingParamsText := "Required parameters missing"
  const HmacFailedText := "HMAC validation failed"
  const SuccessTemplate := "./templates/success.liquid"
  const AuthorizePath := "/admin/oauth/authorize"

  // ---------------------------------------------------------------- /install

  /** `name=value` pairs joined by `&`, with nothing escaped. */
  function QueryString(params: seq<(string, string)>): string
  {
    if |params| == 0 then ""
    else params[0].0 + "=" + params[0].1 + (if |params| == 1 then "" else "&" + QueryString(params[1..]))
  }

  /** An https URL assembled from its host, path and query parameters, nothing escaped. */
  function HttpsUrl(host: string, path: string, params: seq<(string, string)>): string
  {
    "https://" + host + path + "?" + QueryString(params)
  }

  function RedirectUri(config: Config): string
  {
    config.baseUrl + "/callback"
  }

  /** The authorization request parameters of RFC 6749 section 4.1.1, in the order the handler writes them. */
  function AuthorizeParams(config: Config, nonce: nat): seq<(string, string)>
  {
    [("client_id", config.apiKey), ("scope", ArrayToString(config.scopes)),
     ("state", NumberToString(nonce)), ("redirect_uri", RedirectUri(config))]
  }

  /** `installUri`, concatenated piece by piece as the handler does. */
  function InstallUri(shop: string, config: Config, nonce: nat): string
  {
    "https://" + shop +
    "/admin/oauth/authorize?client_id=" + config.apiKey +
    "&scope=" + ArrayToString(config.scopes) +
    "&state=" + NumberToString(nonce) +
    "&redirect_uri=" + RedirectUri(config)
  }

  lemma QueryStringCons(p: (string, string), rest: seq<(string, string)>, tail: string)
    requires |rest| >= 1 && QueryString(rest) == tail
    ensures QueryString([p] + rest) == p.0 + "=" + p.1 + "&" + tail
  {
    assert ([p] + rest)[1..] == rest;
  }

  lemma QueryString4(a: (string, string), b: (string, string), c: (string, string), d: (string, string))
    ensures QueryString([a, b, c, d]) ==
      a.0 + "=" + a.1 + "&" + b.0 + "=" + b.1 + "&" + c.0 + "=" + c.1 + "&" + d.0 + "=" + d.1
  {
    var q3 := d.0 + "=" + d.1;
    var q2 := c.0 + "=" + c.1 + "&" + q3;
    var q1 := b.0 + "=" + b.1 + "&" + q2;
    assert QueryString([d]) == q3;
    QueryStringCons(c, [d], q3);
    assert [c] + [d] == [c, d];
    QueryStringCons(b, [c, d], q2);
    assert [b] + [c, d] == [b, c, d];
    QueryStringCons(a, [b, c, d], q1);
    assert [a] + [b, c, d] == [a, b, c, d];
  }

  /** Regrouping the handler's concatenation around the query string. */
  lemma Regroup(shop: string, path: string, key: string, scope: string, state: string, uri: string,
                head: string, scopeLit: string, stateLit: string, uriLit: string)
    requires head == path + "?" + "client_id" + "="
    requires scopeLit == "&" + "scope" + "=" && stateLit == "&" + "state" + "="
    requires uriLit == "&" + "redirect_uri" + "="
    ensures "https://" + shop + head + key + scopeLit + scope + stateLit + state + uriLit + uri ==
      "https://" + shop + path + "?" +
      ("client_id" + "=" + key + "&" + "scope" + "=" + scope + "&" + "state" + "=" + state + "&" + "redirect_uri" + "=" + uri)
  {
  }

  /** The concatenation is an https URL to the shop's authorization path
      carrying the four parameters in order, unescaped. */
  lemma InstallUriIsAuthorizeUrl(shop: string, config: Config, nonce: nat)
    ensures InstallUri(shop, config, nonce) == HttpsUrl(shop, AuthorizePath, AuthorizeParams(config, nonce))
  {
    var key, scope, state, uri := config.apiKey, ArrayToString(config.scopes), NumberToString(nonce), RedirectUri(config);
    QueryString4(("client_id", key), ("scope", scope), ("state", state), ("redirect_uri", uri));
    Regroup(shop, AuthorizePath, key, scope, state, uri,
            "/admin/oauth/authorize?client_id=", "&scope=", "&state=", "&redirect_uri=");
  }

  /** GET /install. `nonce` stands for the value `nonce()` returns. */
  function Install(query: Query, config: Config, nonce: nat): (reply: Reply)
    ensures reply.Redirect? <==> Truthy(Param(query, "shop"))
    ensures reply.Redirect? ==>
      reply.status == 302 &&
      reply.location == HttpsUrl(query["shop"], AuthorizePath, AuthorizeParams(config, nonce))
    ensures !reply.Redirect? ==> reply == Send(400, MissingShopText)
  {
    var shopName := Param(query, "shop");
    if Truthy(shopName) then
      InstallUriIsAuthorizeUrl(shopName.value, config, nonce);
      Redirect(302, InstallUri(shopName.value, config, nonce))
    else
      Send(400, MissingShopText)
  }

  /** With CONFIG loaded from the environment, `/install?shop=s` redirects to
      the authorization URL whose `scope` is SHOPIFY_SCOPES with every space
      made a comma, whose `state` is the nonce in decimal and whose
      `redirect_uri` is BASE_URL followed by `/callback`. */
  lemma InstallFromEnvironment(query: Query, baseUrl: string, apiKey: string, apiSecret: string,
                               scopesEnv: string, nonce: nat)
    requires Truthy(Param(query, "shop"))
    ensures Install(query, LoadConfig(baseUrl, apiKey, apiSecret, scopesEnv), nonce) ==
      Redirect(302, HttpsUrl(query["shop"], AuthorizePath,
        [("client_id", apiKey), ("scope", ReplaceAll(scopesEnv, ' ', ',')),
         ("state", NumberToString(nonce)), ("redirect_uri", baseUrl + "/callback")]))
  {
    SplitOnSpaceCommaJoined(scopesEnv);
  }

  // --------------------------------------------------------------- /callback

  /** The body of the POST to the shop's token endpoint, and where it goes. */
  datatype TokenRequest = TokenRequest(url: string, clientId: string, clientSecret: string, code: string)

  /** What `got.post` produces: the parsed JSON body, or a rejection. */
  datatype PostResult = Posted(body: JsonObject) | PostFailed

  function TokenRequestFor(shop: string, code: string, config: Config): TokenRequest
  {
    TokenRequest("https://" + shop + "/admin/oauth/access_token", config.apiKey, config.apiSecret, code)
  }

  /** The one parameter name `Object.assign({}, query)` does not copy: on a
      plain `{}` the assignment runs the inherited `__proto__` setter, which
      ignores a string value, so no own key of that name is created. */
  const ProtoKey := "__proto__"

  /** The parameters the signature covers: all but `signature`, `hmac` and
      the `__proto__` key the copy loses. */
  function SigningMap(query: Query): Query
  {
    query - {"signature", "hmac", ProtoKey}
  }

  /** The handler's outcome, and the token requests it sends, as a function of
      the `shop`, `code` and `hmac` parameters and the signed message alone. */
  function CallbackDecision(shop: Option<string>, code: Option<string>, hmac: Option<string>, message: string,
                            config: Config, mac: (string, string) -> Digest,
                            post: TokenRequest -> PostResult): (Reply, seq<TokenRequest>)
  {
    if !(Truthy(shop) && Truthy(code)) then (Send(400, MissingParamsText), [])
    else if hmac.None? then (Redirect(302, config.baseUrl), [])
    else if hmac.value != Hex(mac(config.apiSecret, message)) then (Send(400, HmacFailedText), [])
    else
      var request := TokenRequestFor(shop.value, code.value, config);
      match post(request)
      case Posted(body) => (View(SuccessTemplate, body), [request])
      case PostFailed => (Redirect(302, config.baseUrl), [request])
  }

  /** Copies the query and deletes `signature` and `hmac` from the copy. */
  method BuildSigningMap(query: Query) returns (signing: Query)
    ensures signing.Keys == query.Keys - {"signature", "hmac", ProtoKey}
    ensures forall k :: k in signing ==> signing[k] == query[k]
  {
    // Object.assign({}, query) copies every own key except `__proto__`.
    signing := query - {ProtoKey};
    signing := signing - {"signature"};
    signing := signing - {"hmac"};
  }

  /** `timingSafeEqual` inside its own try: a length mismatch is caught and
      counts as a mismatch, so this step always ends normally. */
  method CompareHashes(generated: seq<byte>, provided: seq<byte>) returns (hashEquals: bool)
    ensures hashEquals <==> |generated| == |provided| && generated == provided
  {
    hashEquals := false;
    var compared := TimingSafeEqual(generated, provided);
    match compared {
      case Normal(equal) => hashEquals := equal;
      case Abrupt(_) => hashEquals := false;
    }
  }

  /** The body of the callback's outer try block. It ends abruptly exactly
      when `hmac` is absent (Buffer.from throws) or the token POST fails. */
  method CallbackTry(query: Query, config: Config, mac: (string, string) -> Digest,
                     stringify: Query -> string, post: TokenRequest -> PostResult)
    returns (completion: Completion<Reply>, requests: seq<TokenRequest>)
    ensures var (reply, sent) := CallbackDecision(Param(query, "shop"), Param(query, "code"), Param(query, "hmac"),
                                                  stringify(SigningMap(query)), config, mac, post);
      && requests == sent
      && (completion.Normal? ==> completion.value == reply)
      && (completion.Abrupt? ==> reply == Redirect(302, config.baseUrl))
    ensures completion.Abrupt? <==>
      Truthy(Param(query, "shop")) && Truthy(Param(query, "code")) &&
      ("hmac" !in query ||
       (query["hmac"] == Hex(mac(config.apiSecret, stringify(SigningMap(query)))) &&
        post(TokenRequestFor(query["shop"], query["code"], config)).PostFailed?))
    ensures completion.Abrupt? && "hmac" !in query ==> completion.error == TypeError
    ensures completion.Abrupt? && "hmac" in query ==> completion.error == RequestError
  {
    var shop, hmac, code := Param(query, "shop"), Param(query, "hmac"), Param(query, "code");
    // `shopState` is read but never used: the state check is disabled.
    var shopState := Param(query, "shopState");
    requests := [];
    if Truthy(shop) && Truthy(code) {
      var signing := BuildSigningMap(query);
      assert signing == SigningMap(query);
      var message := stringify(signing);
      var providedHmac := BufferFrom(hmac);
      if providedHmac.Abrupt? {
        completion := Abrupt(providedHmac.error);
        return;
      }
      var expected := Hex(mac(config.apiSecret, message));
      var generatedHash := Utf8(expected);
      var hashEquals := CompareHashes(generatedHash, providedHmac.value);
      HexIsAscii(mac(config.apiSecret, message));
      if hashEquals {
        Utf8MatchesAscii(hmac.value, expected);
      }
      if !hashEquals {
        completion := Normal(Send(400, HmacFailedText));
        return;
      }
      var request := TokenRequestFor(shop.value, code.value, config);
      requests := [request];
      var response := post(request);
      match response {
        case PostFailed => completion := Abrupt(RequestError);
        case Posted(body) => completion := Normal(View(SuccessTemplate, body));
      }
    } else {
      completion := Normal(Send(400, MissingParamsText));
    }
  }

  /** GET /callback: the try block with its catch-all, which answers any
      exception with a redirect to BASE_URL. */
  method Callback(query: Query, config: Config, mac: (string, string) -> Digest,
                  stringify: Query -> string, post: TokenRequest -> PostResult)
    returns (reply: Reply, requests: seq<TokenRequest>)
    ensures (reply, requests) ==
      CallbackDecision(Param(query, "shop"), Param(query, "code"), Param(query, "hmac"),
                       stringify(SigningMap(query)), config, mac, post)
    ensures requests != [] <==>
      Truthy(Param(query, "shop")) && Truthy(Param(query, "code")) && "hmac" in query &&
      query["hmac"] == Hex(mac(config.apiSecret, stringify(SigningMap(query))))
    ensures requests != [] ==>
      requests == [TokenRequestFor(query["shop"], query["code"], config)] &&
      Unhex(query["hmac"]) == Some(mac(config.apiSecret, stringify(SigningMap(query))))
  {
    var completion;
    completion, requests := CallbackTry(query, config, mac, stringify, post);
    match completion {
      case Normal(r) => reply := r;
      case Abrupt(_) => reply := Redirect(302, config.baseUrl);
    }
    if requests != [] {
      UnhexHex(mac(config.apiSecret, stringify(SigningMap(query))));
    }
  }

  /** A `__proto__` parameter is outside the signature: adding one to a
      callback, with any value, changes neither the reply nor the requests. */
  lemma ProtoParamUnsigned(query: Query, v: string, config: Config, mac: (string, string) -> Digest,
                           stringify: Query -> string, post: TokenRequest -> PostResult)
    ensures var extended := query[ProtoKey := v];
      CallbackDecision(Param(extended, "shop"), Param(extended, "code"), Param(extended, "hmac"),
                       stringify(SigningMap(extended)), config, mac, post) ==
      CallbackDecision(Param(query, "shop"), Param(query, "code"), Param(query, "hmac"),
                       stringify(SigningMap(query)), config, mac, post)
  {
    var extended := query[ProtoKey := v];
    assert SigningMap(extended) == SigningMap(query);
    assert Param(extended, "shop") == Param(query, "shop");
    assert Param(extended, "code") == Param(query, "code");
    assert Param(extended, "hmac") == Param(query, "hmac");
  }
}
