/**
 * CF::Client (lib/cf/client.rb): validates the configuration, assembles the URL and the
 * headers, hands the request to the transport and classifies the response. CGI.escape and
 * JSON.parse are library calls and enter as function parameters; the transport is the
 * Transport class below.
 */
module ApiClient {
  import opened Wrappers
  import opened Errors
  import opened Strings
  import opened Values
  import Auth
  import Config

  /** The HTTP verbs the client offers. */
  datatype Verb = Get | Post | Put | Patch | Delete

  /** What the client hands to the transport. */
  datatype HttpRequest = HttpRequest(verb: Verb, url: string, body: Option<Value>, headers: AList<string>)

  /** What the transport hands back: the status code and the body, which may be nil. */
  datatype RawResponse = RawResponse(status: int, body: Option<string>)

  /** The outcome of JSON.parse: a value, or a JSON::ParserError. */
  datatype ParseResult = ParseOk(value: Value) | ParseFail

  /**
   * The network collaborator. Each send is recorded in `sent`, and the reply is whatever
   * the (unknown) server function `respond` gives for the request.
   */
  class Transport {
    var sent: seq<HttpRequest>
    const respond: HttpRequest -> RawResponse

    constructor (respond: HttpRequest -> RawResponse)
      ensures sent == [] && this.respond == respond
    {
      sent := [];
      this.respond := respond;
    }

    method Send(req: HttpRequest) returns (resp: RawResponse)
      modifies this`sent
      ensures sent == old(sent) + [req]
      ensures resp == respond(req)
    {
      sent := sent + [req];
      resp := respond(req);
    }
  }

  // ---------------------------------------------------------------- query strings

  /** One parameter of the query string: `k=v`, `k[]=v` per element, or `k[sub]=v` per entry. */
  function QueryPart(key: string, v: Value, escape: string -> string): string
  {
    match v
    case Arr(items) =>
      Join(seq(|items|, j requires 0 <= j < |items| => key + "[]=" + escape(ToS(items[j]))), "&")
    case Hash(entries) =>
      Join(seq(|entries|, j requires 0 <= j < |entries| =>
                 key + "[" + entries[j].0 + "]=" + escape(ToS(entries[j].1))), "&")
    case _ => key + "=" + escape(ToS(v))
  }

  /** `build_query_string`: the parts of all parameters, in order, joined by "&". */
  function BuildQueryString(params: AList<Value>, escape: string -> string): string
  {
    Join(seq(|params|, i requires 0 <= i < |params| => QueryPart(params[i].0, params[i].1, escape)), "&")
  }

  /**
   * The query string keeps the parameters' order: the string for two lists of parameters
   * is the string for the first, "&", and the string for the second.
   */
  lemma QueryStringAppend(a: AList<Value>, b: AList<Value>, escape: string -> string)
    requires |a| > 0 && |b| > 0
    ensures BuildQueryString(a + b, escape) == BuildQueryString(a, escape) + "&" + BuildQueryString(b, escape)
  {
    var pa := seq(|a|, i requires 0 <= i < |a| => QueryPart(a[i].0, a[i].1, escape));
    var pb := seq(|b|, i requires 0 <= i < |b| => QueryPart(b[i].0, b[i].1, escape));
    var ab := a + b;
    assert seq(|ab|, i requires 0 <= i < |ab| => QueryPart(ab[i].0, ab[i].1, escape)) == pa + pb;
    JoinAppend(pa, pb, "&");
  }

  /** A single scalar parameter gives `key=escaped value`. */
  lemma QueryStringScalar(key: string, v: Value, escape: string -> string)
    requires !v.Arr? && !v.Hash?
    ensures BuildQueryString([(key, v)], escape) == key + "=" + escape(ToS(v))
  {
    assert seq(1, i requires 0 <= i < 1 => QueryPart([(key, v)][i].0, [(key, v)][i].1, escape)) == [QueryPart(key, v, escape)];
  }

  /** A single array parameter repeats `key[]=` for every element, in order. */
  lemma QueryStringArray(key: string, items: seq<Value>, escape: string -> string)
    ensures BuildQueryString([(key, Arr(items))], escape)
         == Join(seq(|items|, j requires 0 <= j < |items| => key + "[]=" + escape(ToS(items[j]))), "&")
  {
    assert seq(1, i requires 0 <= i < 1 => QueryPart([(key, Arr(items))][i].0, [(key, Arr(items))][i].1, escape))
        == [QueryPart(key, Arr(items), escape)];
  }

  /** A single hash parameter gives `key[sub]=` for every entry, in order. */
  lemma QueryStringHash(key: string, entries: AList<Value>, escape: string -> string)
    ensures BuildQueryString([(key, Hash(entries))], escape)
         == Join(seq(|entries|, j requires 0 <= j < |entries| =>
                       key + "[" + entries[j].0 + "]=" + escape(ToS(entries[j].1))), "&")
  {
    assert seq(1, i requires 0 <= i < 1 => QueryPart([(key, Hash(entries))][i].0, [(key, Hash(entries))][i].1, escape))
        == [QueryPart(key, Hash(entries), escape)];
  }

  lemma HundredText()
    ensures ToS(Int(100)) == "100"
  {
    assert "0123456789"[0] == '0' && "0123456789"[1] == '1';
    assert NatToString(10) == "10";
    assert NatToString(100) == NatToString(10) + "0";
  }

  /** A single hash parameter with one entry gives `key[sub]=escaped value`. */
  lemma QueryStringOneEntryHash(key: string, sub: string, v: Value, escape: string -> string)
    ensures BuildQueryString([(key, Hash([(sub, v)]))], escape) == key + "[" + sub + "]=" + escape(ToS(v))
  {
    QueryStringHash(key, [(sub, v)], escape);
    var ps := seq(1, j requires 0 <= j < 1 => key + "[" + [(sub, v)][j].0 + "]=" + escape(ToS([(sub, v)][j].1)));
    assert ps == [key + "[" + sub + "]=" + escape(ToS(v))];
  }

  /** The pagination-and-filter example: two hash parameters give `after[id]=100&filter[status]=paid`. */
  lemma QueryStringNestedExample(escape: string -> string)
    requires escape("100") == "100" && escape("paid") == "paid"
    ensures BuildQueryString([("after", Hash([("id", Int(100))])), ("filter", Hash([("status", Str("paid"))]))], escape)
         == "after" + "[" + "id" + "]=" + "100" + "&" + "filter" + "[" + "status" + "]=" + "paid"
  {
    var a: AList<Value> := [("after", Hash([("id", Int(100))]))];
    var b: AList<Value> := [("filter", Hash([("status", Str("paid"))]))];
    QueryStringAppend(a, b, escape);
    HundredText();
    QueryStringOneEntryHash("after", "id", Int(100), escape);
    QueryStringOneEntryHash("filter", "status", Str("paid"), escape);
    assert a + b == [("after", Hash([("id", Int(100))])), ("filter", Hash([("status", Str("paid"))]))];
  }

  /** A float renders as its `to_s` text and a symbol as its name, as in `price: 9.99, status: :paid`. */
  lemma QueryStringFloatAndSymbol(escape: string -> string)
    requires escape("9.99") == "9.99" && escape("paid") == "paid"
    ensures BuildQueryString([("price", Float("9.99")), ("status", Sym("paid"))], escape)
         == "price" + "=" + "9.99" + "&" + "status" + "=" + "paid"
  {
    var a: AList<Value> := [("price", Float("9.99"))];
    var b: AList<Value> := [("status", Sym("paid"))];
    QueryStringAppend(a, b, escape);
    QueryStringScalar("price", Float("9.99"), escape);
    QueryStringScalar("status", Sym("paid"), escape);
    assert a + b == [("price", Float("9.99")), ("status", Sym("paid"))];
  }

  // ---------------------------------------------------------------- responses

  /** The message and error class `handle_response` gives a status outside 200..299. */
  function ErrorFor(status: int): (string, ApiErrorClass)
  {
    if status == 400 then ("Bad Request", BadRequestError)
    else if status == 401 then ("Unauthorized", UnauthorizedError)
    else if status == 403 then ("Forbidden", ForbiddenError)
    else if status == 404 then ("Not Found", NotFoundError)
    else if status == 422 then ("Unprocessable Entity", UnprocessableEntityError)
    else if status == 429 then ("Too Many Requests", TooManyRequestsError)
    else if status == 500 then ("Internal Server Error", InternalServerError)
    else if status == 502 then ("Bad Gateway", BadGatewayError)
    else if status == 503 then ("Service Unavailable", ServiceUnavailableError)
    else if status == 504 then ("Gateway Timeout", GatewayTimeoutError)
    else ("HTTP " + IntToString(status), APIError)
  }

  /** The status each specific error class stands for; the generic APIError has none. */
  function StatusOf(c: ApiErrorClass): (s: Option<int>)
    ensures s.None? <==> c == APIError
  {
    match c
    case APIError => None
    case BadRequestError => Some(400)
    case UnauthorizedError => Some(401)
    case ForbiddenError => Some(403)
    case NotFoundError => Some(404)
    case UnprocessableEntityError => Some(422)
    case TooManyRequestsError => Some(429)
    case InternalServerError => Some(500)
    case BadGatewayError => Some(502)
    case ServiceUnavailableError => Some(503)
    case GatewayTimeoutError => Some(504)
  }

  /**
   * The status table is a bijection between the ten listed statuses and the ten specific
   * classes; every other status falls to APIError with the message "HTTP <status>".
   */
  lemma ErrorTableInverse(status: int, c: ApiErrorClass)
    ensures c != APIError ==> ErrorFor(StatusOf(c).value).1 == c
    ensures ErrorFor(status).1 != APIError ==> StatusOf(ErrorFor(status).1) == Some(status)
    ensures ErrorFor(status).1 == APIError <==> StatusOf(ErrorFor(status).1).None?
    ensures ErrorFor(status).1 == APIError ==> ErrorFor(status).0 == "HTTP " + IntToString(status)
  {
  }

  /** The response body as the error object carries it. */
  function BodyValue(body: Option<string>): Value
  {
    match body
    case None => Nil
    case Some(b) => Str(b)
  }

  /** The five keys of every error object, in order. */
  const ERROR_KEYS := ["error", "error_type", "message", "status", "response_body"]

  /** `create_error_response`: an error object, returned rather than raised. */
  function CreateErrorResponse(message: string, c: ApiErrorClass, resp: RawResponse): (v: Value)
    ensures v.Hash? && Keys(v.entries) == ERROR_KEYS && UniqueKeys(v.entries)
    ensures Lookup(v.entries, "error") == Some(Bool(true))
    ensures Lookup(v.entries, "error_type") == Some(Str(ClassName(c)))
    ensures Lookup(v.entries, "message") == Some(Str(message))
    ensures Lookup(v.entries, "status") == Some(Int(resp.status))
    ensures Lookup(v.entries, "response_body") == Some(BodyValue(resp.body))
  {
    var entries := [("error", Bool(true)), ("error_type", Str(ClassName(c))), ("message", Str(message)),
                    ("status", Int(resp.status)), ("response_body", BodyValue(resp.body))];
    LookupUnique(entries, 2);
    LookupUnique(entries, 3);
    LookupUnique(entries, 4);
    Hash(entries)
  }

  /**
   * `parse_response_body`: nothing for a nil or empty body, the parsed value for JSON, and
   * the raw text for a body JSON.parse rejects.
   */
  function ParseResponseBody(body: Option<string>, parse: string -> ParseResult): (v: Value)
    ensures body.None? || body == Some("") ==> v == Nil
    ensures body.Some? && body.value != "" && parse(body.value).ParseOk? ==> v == parse(body.value).value
    ensures body.Some? && body.value != "" && parse(body.value).ParseFail? ==> v == Str(body.value)
  {
    match body
    case None => Nil
    case Some(b) =>
      if b == "" then Nil
      else match parse(b)
        case ParseOk(x) => x
        case ParseFail => Str(b)
  }

  predicate IsSuccessStatus(status: int)
  {
    200 <= status <= 299
  }

  /** `handle_response`. */
  function HandleResponse(resp: RawResponse, parse: string -> ParseResult): (v: Value)
    ensures IsSuccessStatus(resp.status) ==> v == ParseResponseBody(resp.body, parse)
    ensures !IsSuccessStatus(resp.status) ==>
      v.Hash? && Keys(v.entries) == ERROR_KEYS
      && Lookup(v.entries, "error") == Some(Bool(true))
      && Lookup(v.entries, "error_type") == Some(Str(ClassName(ErrorFor(resp.status).1)))
      && Lookup(v.entries, "message") == Some(Str(ErrorFor(resp.status).0))
      && Lookup(v.entries, "status") == Some(Int(resp.status))
      && Lookup(v.entries, "response_body") == Some(BodyValue(resp.body))
  {
    if IsSuccessStatus(resp.status) then ParseResponseBody(resp.body, parse)
    else
      var (message, c) := ErrorFor(resp.status);
      CreateErrorResponse(message, c, resp)
  }

  /** The error-object example: a 404 is reported as CF::NotFoundError with "Not Found". */
  lemma NotFoundExample(body: Option<string>, parse: string -> ParseResult)
    ensures HandleResponse(RawResponse(404, body), parse)
         == Hash([("error", Bool(true)), ("error_type", Str("CF::NotFoundError")), ("message", Str("Not Found")),
                  ("status", Int(404)), ("response_body", BodyValue(body))])
  {
    assert ErrorFor(404) == ("Not Found", NotFoundError);
    assert ClassName(NotFoundError) == "CF::NotFoundError";
  }

  // ---------------------------------------------------------------- the client

  class Client {
    const configuration: Config.Configuration
    const transport: Transport
    const escape: string -> string
    const parseJson: string -> ParseResult
    const sdkVersion: string

    constructor (configuration: Config.Configuration, transport: Transport,
                 escape: string -> string, parseJson: string -> ParseResult, sdkVersion: string)
      ensures this.configuration == configuration && this.transport == transport
      ensures this.escape == escape && this.parseJson == parseJson && this.sdkVersion == sdkVersion
    {
      this.configuration := configuration;
      this.transport := transport;
      this.escape := escape;
      this.parseJson := parseJson;
      this.sdkVersion := sdkVersion;
    }

    /** The token check comes first; only a present, non-empty token reaches `valid?`. */
    function ValidateConfiguration(): (r: Result<(), SdkError>)
      reads configuration
      ensures configuration.apiToken.None? || configuration.apiToken == Some("") ==>
                r == Failure(AuthenticationError("API token is required"))
      ensures configuration.apiToken.Some? && configuration.apiToken != Some("") ==>
                (r.Success? <==> configuration.subdomain.Some?)
      ensures r.Failure? && configuration.apiToken.Some? && configuration.apiToken != Some("") ==>
                r.error == ConfigurationError("Configuration is invalid")
    {
      match Auth.ValidateToken(configuration.apiToken)
      case Failure(e) => Failure(e)
      case Success(_) =>
        if configuration.IsValid() then Success(()) else Failure(ConfigurationError("Configuration is invalid"))
    }

    /** `build_url`: the base URL and the path, then "?" and the query string unless there are no parameters. */
    function BuildUrl(path: string, params: AList<Value>): (r: Result<string, SdkError>)
      reads configuration
      ensures r.Failure? <==> configuration.BaseUrl().Failure?
      ensures r.Success? && |params| == 0 ==> r.value == configuration.BaseUrl().value + path
      ensures r.Success? && |params| > 0 ==>
                r.value == configuration.BaseUrl().value + path + "?" + BuildQueryString(params, escape)
    {
      match configuration.BaseUrl()
      case Failure(e) => Failure(e)
      case Success(base) =>
        var url := base + path;
        if |params| == 0 then Success(url) else Success(url + "?" + BuildQueryString(params, escape))
    }

    /** The headers of every request: the bearer headers, then Accept and Content-Type. */
    function Headers(): (h: AList<string>)
      reads configuration
      ensures Keys(h) == ["Authorization", "User-Agent", "Accept", "Content-Type"] && UniqueKeys(h)
      ensures Lookup(h, "Authorization") == Some("Bearer " + Auth.TokenText(configuration.apiToken))
      ensures Lookup(h, "User-Agent") == Some("CF Ruby SDK " + sdkVersion)
      ensures Lookup(h, "Accept") == Some("application/json")
      ensures Lookup(h, "Content-Type") == Some("application/json")
    {
      var h := [("Authorization", "Bearer " + Auth.TokenText(configuration.apiToken)),
                ("User-Agent", "CF Ruby SDK " + sdkVersion),
                ("Accept", "application/json"), ("Content-Type", "application/json")];
      LookupUnique(h, 1);
      LookupUnique(h, 2);
      LookupUnique(h, 3);
      h
    }

    /** Storing the two JSON headers into the bearer headers appends them in that order. */
    static lemma JsonHeadersAppend(bearer: AList<string>)
      requires |bearer| == 2 && bearer[0].0 == "Authorization" && bearer[1].0 == "User-Agent"
      ensures Values.Put(Values.Put(bearer, "Accept", "application/json"), "Content-Type", "application/json")
           == bearer + [("Accept", "application/json"), ("Content-Type", "application/json")]
    {
      assert bearer[0].0 != "Accept" && bearer[1].0 != "Accept";
      PutAbsent(bearer, "Accept", "application/json");
      var h := bearer + [("Accept", "application/json")];
      assert h[0].0 != "Content-Type" && h[1].0 != "Content-Type" && h[2].0 != "Content-Type";
      PutAbsent(h, "Content-Type", "application/json");
    }

    /** `build_headers`, which adds the two JSON headers to the bearer headers in place. */
    method BuildHeaders() returns (h: AList<string>)
      ensures h == Headers()
    {
      h := Auth.BearerTokenHeaders(configuration.apiToken, sdkVersion);
      JsonHeadersAppend(h);
      h := Values.Put(h, "Accept", "application/json");
      h := Values.Put(h, "Content-Type", "application/json");
    }

    /**
     * The request `request` would send, or the error it raises before sending: a missing
     * or empty token is reported before an invalid configuration, get and delete go without
     * a body, and every request carries the standard headers.
     */
    function Prepare(verb: Verb, path: string, body: Option<Value>, params: AList<Value>): (r: Result<HttpRequest, SdkError>)
      reads configuration
      ensures configuration.apiToken.None? || configuration.apiToken == Some("") ==>
                r == Failure(AuthenticationError("API token is required"))
      ensures configuration.apiToken.Some? && configuration.apiToken != Some("") && configuration.subdomain.None? ==>
                r == Failure(ConfigurationError("Configuration is invalid"))
      ensures r.Success? <==> configuration.apiToken.Some? && configuration.apiToken != Some("") && configuration.subdomain.Some?
      ensures r.Success? ==>
                && r.value.verb == verb
                && r.value.url == BuildUrl(path, params).value
                && r.value.headers == Headers()
                && r.value.body == (if verb == Verb.Get || verb == Verb.Delete then None else body)
    {
      match ValidateConfiguration()
      case Failure(e) => Failure(e)
      case Success(_) =>
        // a valid configuration has a subdomain, so building the URL cannot fail here
        var url := BuildUrl(path, params).value;
        Success(HttpRequest(verb, url, if verb == Verb.Get || verb == Verb.Delete then None else body, Headers()))
    }

    /** What `request` adds to the transport's log, and what it returns or raises. */
    function Effect(verb: Verb, path: string, body: Option<Value>, params: AList<Value>): (e: (seq<HttpRequest>, Result<Value, SdkError>))
      reads configuration
      ensures Prepare(verb, path, body, params).Failure? ==>
                e == ([], Failure(Prepare(verb, path, body, params).error))
      ensures Prepare(verb, path, body, params).Success? ==>
                var req := Prepare(verb, path, body, params).value;
                e == ([req], Success(HandleResponse(transport.respond(req), parseJson)))
    {
      match Prepare(verb, path, body, params)
      case Failure(err) => ([], Failure(err))
      case Success(req) => ([req], Success(HandleResponse(transport.respond(req), parseJson)))
    }

    /** `request`: validate, build the URL and headers, send once, classify the reply. */
    method Request(verb: Verb, path: string, body: Option<Value>, params: AList<Value>) returns (r: Result<Value, SdkError>)
      modifies transport`sent
      ensures transport.sent == old(transport.sent) + Effect(verb, path, body, params).0
      ensures r == Effect(verb, path, body, params).1
    {
      var valid := ValidateConfiguration();
      if valid.Failure? {
        return Failure(valid.error);
      }
      var url := BuildUrl(path, params);
      var headers := BuildHeaders();
      var resp;
      if verb == Verb.Get || verb == Verb.Delete {
        resp := transport.Send(HttpRequest(verb, url.value, None, headers));
      } else {
        resp := transport.Send(HttpRequest(verb, url.value, body, headers));
      }
      r := Success(HandleResponse(resp, parseJson));
    }

    /** `get`: a request without a body. */
    method Get(path: string, params: AList<Value>) returns (r: Result<Value, SdkError>)
      modifies transport`sent
      ensures transport.sent == old(transport.sent) + Effect(Verb.Get, path, None, params).0
      ensures r == Effect(Verb.Get, path, None, params).1
    {
      r := Request(Verb.Get, path, None, params);
    }

    /** `post`. */
    method Post(path: string, body: Option<Value>, params: AList<Value>) returns (r: Result<Value, SdkError>)
      modifies transport`sent
      ensures transport.sent == old(transport.sent) + Effect(Verb.Post, path, body, params).0
      ensures r == Effect(Verb.Post, path, body, params).1
    {
      r := Request(Verb.Post, path, body, params);
    }

    /** `put`. */
    method Put(path: string, body: Option<Value>, params: AList<Value>) returns (r: Result<Value, SdkError>)
      modifies transport`sent
      ensures transport.sent == old(transport.sent) + Effect(Verb.Put, path, body, params).0
      ensures r == Effect(Verb.Put, path, body, params).1
    {
      r := Request(Verb.Put, path, body, params);
    }

    /** `patch`. */
    method Patch(path: string, body: Option<Value>, params: AList<Value>) returns (r: Result<Value, SdkError>)
      modifies transport`sent
      ensures transport.sent == old(transport.sent) + Effect(Verb.Patch, path, body, params).0
      ensures r == Effect(Verb.Patch, path, body, params).1
    {
      r := Request(Verb.Patch, path, body, params);
    }

    /** `delete`: a request without a body. */
    method Delete(path: string, params: AList<Value>) returns (r: Result<Value, SdkError>)
      modifies transport`sent
      ensures transport.sent == old(transport.sent) + Effect(Verb.Delete, path, None, params).0
      ensures r == Effect(Verb.Delete, path, None, params).1
    {
      r := Request(Verb.Delete, path, None, params);
    }
  }

  /**
   * A request is sent exactly when the token is present and non-empty and the subdomain is
   * set; it is sent once, and what comes back is the classified response.
   */
  lemma RequestSendsOnceWhenValid(c: Client, verb: Verb, path: string, body: Option<Value>, params: AList<Value>)
    ensures |c.Effect(verb, path, body, params).0| <= 1
    ensures |c.Effect(verb, path, body, params).0| == 1 <==>
              c.configuration.apiToken.Some? && c.configuration.apiToken != Some("") && c.configuration.subdomain.Some?
    ensures c.Effect(verb, path, body, params).1.Success? <==> |c.Effect(verb, path, body, params).0| == 1
  {
  }

  /** The URL of a valid request: base URL, path, and the query string after "?" when there are parameters. */
  lemma RequestUrl(c: Client, verb: Verb, path: string, body: Option<Value>, params: AList<Value>)
    requires c.configuration.apiToken.Some? && c.configuration.apiToken != Some("") && c.configuration.subdomain.Some?
    requires |params| > 0
    ensures c.Effect(verb, path, body, params).0[0].url
         == "https://" + c.configuration.subdomain.value + ".myclickfunnels.com/api/" + c.configuration.apiVersion
            + path + "?" + BuildQueryString(params, c.escape)
  {
  }
}
