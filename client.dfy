/** `Client`: holds the API key, organization id and options, decorates
    each request with the authentication headers, hands it to the injected
    HTTP transport and maps the transport's outcome to a return value or an
    exception. The transport is not modelled: its outcome is an input. */
module HttpClient {
  import opened Wrappers
  import opened Php
  import opened Http
  import opened Exceptions

  const ApiKeyConfig := Name("api_key")
  const OrganizationConfig := Name("organization_id")
  const HeadersKey := Name("headers")
  const AuthorizationHeader := Name("Authorization")
  const OrganizationHeaderName := "OpenAI-Organization"
  const MissingApiKeyMessage := "You must provide a OpenAI api key."

  /** One call an endpoint makes on the client: verb, URL and the request
      options (`json`, `multipart`, `curl`, ...). */
  datatype ClientCall = ClientCall(verb: string, url: string, args: Array)

  /** What the transport did with the request. `OtherFailure` is any other
      exception; the client does not catch it. */
  datatype Transport =
    | Delivered(response: HttpResponse)
    | ServerFailure(error: TransportError)
    | ClientFailure(error: TransportError)
    | OtherFailure(error: TransportError)

  /** What `request` hands back to the caller. `NotAnArray` is the PHP error
      raised when the caller's `headers` option is a scalar that cannot take
      an array element. */
  datatype Reply =
    | Wrapped(response: HttpResponse)
    | Raw(response: HttpResponse)
    | Raised(exception: ApiException)
    | Rethrown(transport: Transport)
    | NotAnArray

  /** One request: what was handed to the transport, if anything, and what
      came back. */
  datatype Handled = Handled(sent: Option<ClientCall>, reply: Reply)

  /** The key the constructor stores: `$config['api_key']` when set,
      otherwise what `getenv('OPENAI_Api_SECRET')` returned. */
  function ApiKeyOf(config: Array, envSecret: Value): (k: Value)
    ensures IsSet(config, ApiKeyConfig) ==> Some(k) == Lookup(config, ApiKeyConfig)
    ensures !IsSet(config, ApiKeyConfig) ==> k == envSecret
  {
    if IsSet(config, ApiKeyConfig) then Lookup(config, ApiKeyConfig).value else envSecret
  }

  /** The organization id the constructor stores; null when not configured. */
  function OrganizationOf(config: Array): (o: Value)
    ensures o != Null <==> IsSet(config, OrganizationConfig)
    ensures o != Null ==> Some(o) == Lookup(config, OrganizationConfig)
  {
    if IsSet(config, OrganizationConfig) then Lookup(config, OrganizationConfig).value else Null
  }

  class Client {
    const apiKey: Value
    const organizationId: Value
    const clientOptions: Array
    const wrapResponse: bool

    constructor Init(apiKey: Value, organizationId: Value, clientOptions: Array, wrapResponse: bool)
      ensures this.apiKey == apiKey && this.organizationId == organizationId
      ensures this.clientOptions == clientOptions && this.wrapResponse == wrapResponse
    {
      this.apiKey := apiKey;
      this.organizationId := organizationId;
      this.clientOptions := clientOptions;
      this.wrapResponse := wrapResponse;
    }

    /** `request` as written: decorate the options with `DecorateAsWritten`,
        send them, and map the outcome. */
    function Request(verb: string, url: string, args: Array, outcome: Transport): (h: Handled)
      ensures h.sent.Some? <==> HeadersOf(args).Some?
      ensures h.sent.Some? ==> h.sent.value == ClientCall(verb, url, DecorateAsWritten(apiKey, organizationId, args).value)
      ensures h.sent.None? ==> h.reply == NotAnArray
      ensures h.sent.Some? ==> h.reply == Respond(wrapResponse, outcome)
    {
      match DecorateAsWritten(apiKey, organizationId, args)
      case None => Handled(None, NotAnArray)
      case Some(decorated) => Handled(Some(ClientCall(verb, url, decorated)), Respond(wrapResponse, outcome))
    }

    /** `request` with the organization sent as a named header. */
    function RequestCorrected(verb: string, url: string, args: Array, outcome: Transport): (h: Handled)
      ensures h.sent.Some? <==> HeadersOf(args).Some?
      ensures h.sent.Some? ==> h.sent.value == ClientCall(verb, url, Decorate(apiKey, organizationId, args).value)
      ensures h.sent.None? ==> h.reply == NotAnArray
      ensures h.sent.Some? ==> h.reply == Respond(wrapResponse, outcome)
    {
      match Decorate(apiKey, organizationId, args)
      case None => Handled(None, NotAnArray)
      case Some(decorated) => Handled(Some(ClientCall(verb, url, decorated)), Respond(wrapResponse, outcome))
    }

    /** `post`, with "POST" as the default verb. */
    function Post(url: string, args: Array, outcome: Transport, verb: string := "POST"): (h: Handled)
      ensures h.sent.Some? <==> HeadersOf(args).Some?
      ensures h.sent.Some? ==> h.sent.value.verb == verb && h.sent.value.url == url
      ensures h.sent.Some? ==> h.reply == Respond(wrapResponse, outcome)
    {
      Request(verb, url, args, outcome)
    }

    /** `get`, with "GET" as the default verb. */
    function Get(url: string, args: Array, outcome: Transport, verb: string := "GET"): (h: Handled)
      ensures h.sent.Some? <==> HeadersOf(args).Some?
      ensures h.sent.Some? ==> h.sent.value.verb == verb && h.sent.value.url == url
      ensures h.sent.Some? ==> h.reply == Respond(wrapResponse, outcome)
    {
      Request(verb, url, args, outcome)
    }

    /** `delete`, with the lower-case "delete" as the default verb. */
    function Delete(url: string, args: Array, outcome: Transport, verb: string := "delete"): (h: Handled)
      ensures h.sent.Some? <==> HeadersOf(args).Some?
      ensures h.sent.Some? ==> h.sent.value.verb == verb && h.sent.value.url == url
      ensures h.sent.Some? ==> h.reply == Respond(wrapResponse, outcome)
    {
      Request(verb, url, args, outcome)
    }

    /** Hands a recorded endpoint call to the client. */
    function Perform(call: ClientCall, outcome: Transport): (h: Handled)
    {
      Request(call.verb, call.url, call.args, outcome)
    }
  }

  /** Without an organization the two decorations agree, so `request` as
      written and corrected send the same request; with one they differ
      only in the headers. */
  lemma RequestsAgreeWithoutOrganization(c: Client, verb: string, url: string, args: Array, outcome: Transport)
    ensures Empty(c.organizationId) ==> c.Request(verb, url, args, outcome) == c.RequestCorrected(verb, url, args, outcome)
    ensures var h1 := c.Request(verb, url, args, outcome);
            var h2 := c.RequestCorrected(verb, url, args, outcome);
            h1.reply == h2.reply && (h1.sent.Some? <==> h2.sent.Some?)
            && (h1.sent.Some? ==>
                  h1.sent.value.verb == h2.sent.value.verb && h1.sent.value.url == h2.sent.value.url
                  && forall k :: k != HeadersKey ==> Lookup(h1.sent.value.args, k) == Lookup(h2.sent.value.args, k))
  {
  }

  /** With their default verbs, `post`, `get` and `delete` send "POST",
      "GET" and the lower-case "delete". */
  lemma DefaultVerbs(c: Client, url: string, args: Array, outcome: Transport)
    ensures c.Post(url, args, outcome) == c.Request("POST", url, args, outcome)
    ensures c.Get(url, args, outcome) == c.Request("GET", url, args, outcome)
    ensures c.Delete(url, args, outcome) == c.Request("delete", url, args, outcome)
    ensures HeadersOf(args).Some? ==> c.Delete(url, args, outcome).sent.value.verb == "delete"
  {
  }

  /** The constructor: the key comes from the configuration or the
      environment, and an empty key is refused. */
  method NewClient(config: Array, envSecret: Value, clientOptions: Array := [], wrapResponse: bool := true)
    returns (r: Result<Client, string>)
    ensures r.Failure? <==> Empty(ApiKeyOf(config, envSecret))
    ensures r.Failure? ==> r.error == MissingApiKeyMessage
    ensures r.Success? ==> fresh(r.value)
    ensures r.Success? ==> r.value.apiKey == ApiKeyOf(config, envSecret) && r.value.organizationId == OrganizationOf(config)
    ensures r.Success? ==> r.value.clientOptions == clientOptions && r.value.wrapResponse == wrapResponse
  {
    var key := ApiKeyOf(config, envSecret);
    if Empty(key) {
      return Failure(MissingApiKeyMessage);
    }
    var c := new Client.Init(key, OrganizationOf(config), clientOptions, wrapResponse);
    return Success(c);
  }

  /** The `headers` option as the array `$args['headers'][...] = ...`
      writes into: a missing, null or false option starts empty; any other
      non-array raises an error. */
  function HeadersOf(args: Array): Option<Array>
  {
    match Lookup(args, HeadersKey)
    case None => Some([])
    case Some(Null) => Some([])
    case Some(Bool(false)) => Some([])
    case Some(Arr(h)) => Some(h)
    case Some(_) => None
  }

  /** The header decoration as written: the bearer header under
      `Authorization`, and the organization as a list element holding the
      text `OpenAI-Organization: <id>` under the next integer key. */
  function DecorateAsWritten(apiKey: Value, organizationId: Value, args: Array): (r: Option<Array>)
    ensures r.Some? <==> HeadersOf(args).Some?
    ensures r.Some? ==> forall k :: k != HeadersKey ==> Lookup(r.value, k) == Lookup(args, k)
    ensures r.Some? ==>
      var h := HeadersOf(args).value;
      var h1 := Set(h, AuthorizationHeader, Str("Bearer " + PhpString(apiKey)));
      Lookup(r.value, HeadersKey) == Some(Arr(
        if Empty(organizationId) then h1
        else h1 + [Entry(Index(NextIndex(h1)), Str(OrganizationHeaderName + ": " + PhpString(organizationId)))]))
  {
    match HeadersOf(args)
    case None => None
    case Some(h) =>
      var h1 := Set(h, AuthorizationHeader, Str("Bearer " + PhpString(apiKey)));
      var h2 := if Empty(organizationId) then h1
                else Append(h1, Str(OrganizationHeaderName + ": " + PhpString(organizationId)));
      Some(Set(args, HeadersKey, Arr(h2)))
  }

  /** The header decoration with the organization sent as the named header
      `OpenAI-Organization`, which the rest of the model uses. */
  function Decorate(apiKey: Value, organizationId: Value, args: Array): (r: Option<Array>)
    ensures r.Some? <==> HeadersOf(args).Some?
    ensures r.Some? ==> forall k :: k != HeadersKey ==> Lookup(r.value, k) == Lookup(args, k)
    ensures r.Some? ==> exists h ::
      Lookup(r.value, HeadersKey) == Some(Arr(h))
      && Lookup(h, AuthorizationHeader) == Some(Str("Bearer " + PhpString(apiKey)))
      && (Empty(organizationId) ==> Lookup(h, Name(OrganizationHeaderName)) == Lookup(HeadersOf(args).value, Name(OrganizationHeaderName)))
      && (!Empty(organizationId) ==> Lookup(h, Name(OrganizationHeaderName)) == Some(Str(PhpString(organizationId))))
      && (forall k :: k != AuthorizationHeader && k != Name(OrganizationHeaderName) ==> Lookup(h, k) == Lookup(HeadersOf(args).value, k))
  {
    match HeadersOf(args)
    case None => None
    case Some(h) =>
      var h1 := Set(h, AuthorizationHeader, Str("Bearer " + PhpString(apiKey)));
      var h2 := if Empty(organizationId) then h1
                else Set(h1, Name(OrganizationHeaderName), Str(PhpString(organizationId)));
      assert Lookup(Set(args, HeadersKey, Arr(h2)), HeadersKey) == Some(Arr(h2));
      Some(Set(args, HeadersKey, Arr(h2)))
  }

  /** The `try`/`catch` of `request`: a delivered response is wrapped only
      when configured; when wrapping, a server error becomes an
      `Api_Exception` and a client error a `Bad_Request`, both redacted;
      otherwise the transport's exception propagates as it is. */
  function Respond(wrap: bool, outcome: Transport): (r: Reply)
    ensures r.Wrapped? <==> wrap && outcome.Delivered?
    ensures r.Raw? <==> !wrap && outcome.Delivered?
    ensures r.Rethrown? <==> outcome.OtherFailure? || (!wrap && !outcome.Delivered?)
    ensures r.Rethrown? ==> r.transport == outcome
    ensures r.Raised? ==> NoCredential(r.exception.message)
    ensures r.Raised? ==> r.exception.previous == Some(outcome.error) && r.exception.code == outcome.error.code
    ensures r.Raised? ==> (r.exception.kind == ApiError <==> outcome.ServerFailure?)
    ensures r.Raised? ==> (r.exception.kind == BadRequest <==> outcome.ClientFailure?)
    ensures !r.NotAnArray?
  {
    match outcome
    case Delivered(response) => if wrap then Wrapped(response) else Raw(response)
    case ServerFailure(e) => if wrap then Raised(Create(ApiError, e)) else Rethrown(outcome)
    case ClientFailure(e) => if wrap then Raised(Create(BadRequest, e)) else Rethrown(outcome)
    case OtherFailure(_) => Rethrown(outcome)
  }

  /** The organization header as written is a list element, not a named
      header: with organization `org-1` and no caller headers, the headers
      are `Authorization` and the integer key 0, and no field is named
      `OpenAI-Organization`. The corrected decoration names it. */
  lemma OrganizationHeaderIsMisfiled()
    ensures var r := DecorateAsWritten(Str("sk-1"), Str("org-1"), []);
            r.Some? && Lookup(r.value, HeadersKey) == Some(Arr([
              Entry(AuthorizationHeader, Str("Bearer sk-1")),
              Entry(Index(0), Str("OpenAI-Organization: org-1"))]))
    ensures var r := DecorateAsWritten(Str("sk-1"), Str("org-1"), []);
            r.Some? && Lookup(r.value, HeadersKey).Some? && Lookup(r.value, HeadersKey).value.Arr?
            && !KeyExists(Lookup(r.value, HeadersKey).value.entries, Name(OrganizationHeaderName))
    ensures var r := Decorate(Str("sk-1"), Str("org-1"), []);
            r.Some? && Lookup(r.value, HeadersKey) == Some(Arr([
              Entry(AuthorizationHeader, Str("Bearer sk-1")),
              Entry(Name(OrganizationHeaderName), Str("org-1"))]))
  {
    assert HeadersOf([]) == Some([]);
    assert !Empty(Str("org-1")) by { assert |"org-1"| == 5; }
    assert "Bearer " + PhpString(Str("sk-1")) == "Bearer sk-1";
    assert OrganizationHeaderName + ": " + PhpString(Str("org-1")) == "OpenAI-Organization: org-1";
    var h1 := Set([], AuthorizationHeader, Str("Bearer sk-1"));
    assert h1 == [Entry(AuthorizationHeader, Str("Bearer sk-1"))];
    assert NextIndex(h1) == 0;
    var h2 := h1 + [Entry(Index(0), Str("OpenAI-Organization: org-1"))];
    assert Append(h1, Str("OpenAI-Organization: org-1")) == h2;
    assert h2 == [Entry(AuthorizationHeader, Str("Bearer sk-1")), Entry(Index(0), Str("OpenAI-Organization: org-1"))];
    assert DecorateAsWritten(Str("sk-1"), Str("org-1"), []) == Some(Set([], HeadersKey, Arr(h2)));
    assert Set([], HeadersKey, Arr(h2)) == [Entry(HeadersKey, Arr(h2))];
    assert !KeyExists(h2, Name(OrganizationHeaderName)) by {
      assert h2[1..] == [Entry(Index(0), Str("OpenAI-Organization: org-1"))];
      assert h2[1..][1..] == [];
      assert Lookup(h2, Name(OrganizationHeaderName)) == Lookup(h2[1..], Name(OrganizationHeaderName));
      assert Lookup(h2[1..], Name(OrganizationHeaderName)) == Lookup(h2[1..][1..], Name(OrganizationHeaderName));
    }
    var h3 := Set(h1, Name(OrganizationHeaderName), Str("org-1"));
    assert h3 == h1 + [Entry(Name(OrganizationHeaderName), Str("org-1"))];
    assert h3 == [Entry(AuthorizationHeader, Str("Bearer sk-1")), Entry(Name(OrganizationHeaderName), Str("org-1"))];
    assert Decorate(Str("sk-1"), Str("org-1"), []) == Some(Set([], HeadersKey, Arr(h3)));
    assert Set([], HeadersKey, Arr(h3)) == [Entry(HeadersKey, Arr(h3))];
  }
}
