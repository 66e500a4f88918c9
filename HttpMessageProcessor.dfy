/** Translation of one queue message into an HTTP request, per the queue's
    configuration, and interpretation of the response as success or failure.

    The three library calls the processor makes are not modelled; their
    results are inputs instead: the parse of the redrive URL (an Option of a
    Uri record), the parse of a GET message as a flat JSON object (an Option
    of its properties in order, each value already rendered as text) and the
    execution of the request (a function from what is sent to the response). */
module HttpMessageProcessor {
  import opened Wrappers
  import opened Entities
  import opened Rest
  import Decimal

  const ApiKeyHeader := "x-api-key"
  const AuthorizationHeader := "Authorization"
  const StatusOK := 200
  const StatusCreated := 201

  /** The parts of a parsed absolute URI that the processor reads. */
  datatype Uri = Uri(scheme: string, host: string, port: int, pathAndQuery: string)

  /** Why ProcessMessage raised. */
  datatype ProcessingError =
    | /** The redrive URL is not an absolute URI, or the base URL built from
          it does not parse again. */
      MalformedUrl
    | /** The request never got a usable response (connection, TLS, timeout). */
      TransportError(exception: string)
    | /** The endpoint answered with a status other than 200 or 201. */
      StatusError(statusCode: int, content: string)

  // ---------------------------------------------------------------------
  // Specification of the request and the client

  /** The method of a request that carries the message as its body. */
  function BodyMethod(config: ConfigurationEntry): (m: Method)
    ensures m != Get
    ensures m == Delete <==> config.useDelete
    ensures m == Put <==> !config.useDelete && config.usePUT
    ensures m == Post <==> !config.useDelete && !config.usePUT
  {
    if config.useDelete then Delete else if config.usePUT then Put else Post
  }

  /** The method of the request: GET wins over DELETE, which wins over PUT;
      POST when no flag is set. */
  function SelectMethod(config: ConfigurationEntry): (m: Method)
    ensures m == Get <==> config.useGET
    ensures m == Delete <==> !config.useGET && config.useDelete
    ensures m == Put <==> !config.useGET && !config.useDelete && config.usePUT
    ensures m == Post <==> !config.useGET && !config.useDelete && !config.usePUT
  {
    if config.useGET then Get else BodyMethod(config)
  }

  /** The query parameters of a GET: the message's JSON properties in order,
      or none at all when the message does not parse. */
  function QueryParameters(parsed: Option<Parameters>): (q: Parameters)
    ensures parsed.None? ==> q == []
    ensures parsed.Some? ==> |q| == |parsed.value| && forall i :: 0 <= i < |q| ==> q[i] == parsed.value[i]
  {
    match parsed
    case None => []
    case Some(properties) => properties
  }

  /** The request before authentication and attributes are applied. */
  function BareRequest(message: string, uri: Uri, config: ConfigurationEntry, parsed: Option<Parameters>): (r: Request)
    ensures r.verb == SelectMethod(config)
    ensures r.resource == uri.pathAndQuery
    ensures r.headers == []
    ensures r.verb == Get ==> r.body == None && r.queryParameters == QueryParameters(parsed)
    ensures r.verb != Get ==> r.body == Some(message) && r.queryParameters == []
  {
    if config.useGET then Request(Get, uri.pathAndQuery, QueryParameters(parsed), [], None)
    else Request(BodyMethod(config), uri.pathAndQuery, [], [], Some(message))
  }

  /** The headers authentication adds, each present exactly when its own
      token is set, the API key first. */
  function AuthenticationHeaders(config: ConfigurationEntry): (h: Parameters)
    ensures forall p :: p in h <==>
      (p == (ApiKeyHeader, config.awsGatewayToken) && config.awsGatewayToken != "") ||
      (p == (AuthorizationHeader, config.authToken) && config.authToken != "")
    ensures |h| == (if config.awsGatewayToken != "" then 1 else 0) + (if config.authToken != "" then 1 else 0)
    ensures config.awsGatewayToken != "" ==> h[0] == (ApiKeyHeader, config.awsGatewayToken)
  {
    (if config.awsGatewayToken != "" then [(ApiKeyHeader, config.awsGatewayToken)] else []) +
    (if config.authToken != "" then [(AuthorizationHeader, config.authToken)] else [])
  }

  /** The Basic authenticator, present only when both the user name and the
      password are set. */
  function BasicAuthenticatorFor(config: ConfigurationEntry): (a: Option<BasicAuthenticator>)
    ensures a.Some? <==> config.basicAuthUserName != "" && config.basicAuthPassword != ""
    ensures a.Some? ==> a.value.userName == config.basicAuthUserName && a.value.password == config.basicAuthPassword
  {
    if config.basicAuthPassword != "" && config.basicAuthUserName != "" then
      Some(BasicAuthenticator(config.basicAuthUserName, config.basicAuthPassword))
    else None
  }

  /** An attribute is forwarded as a header only when both its key and its
      value are non-empty. */
  predicate Forwardable(entry: (string, string)) {
    entry.0 != "" && entry.1 != ""
  }

  /** The forwardable entries of an attribute list, in order. */
  function ForwardableEntries(entries: Parameters): (kept: Parameters)
    ensures |kept| <= |entries|
    ensures forall i :: 0 <= i < |kept| ==> Forwardable(kept[i])
  {
    if entries == [] then []
    else
      var last := entries[|entries| - 1];
      ForwardableEntries(entries[..|entries| - 1]) + (if Forwardable(last) then [last] else [])
  }

  /** The headers the message attributes add; none for a null dictionary. */
  function AttributeHeaders(attributes: Option<Parameters>): (h: Parameters)
    ensures attributes.None? ==> h == []
    ensures attributes.Some? ==> forall p :: p in h <==> p in attributes.value && Forwardable(p)
  {
    match attributes
    case None => []
    case Some(entries) =>
      ForwardableEntriesMembership(entries);
      ForwardableEntries(entries)
  }

  /** The request that is sent for a message. */
  function OutboundRequest(message: string, attributes: Option<Parameters>, config: ConfigurationEntry,
                           uri: Uri, parsed: Option<Parameters>): (r: Request)
    ensures r.(headers := []) == BareRequest(message, uri, config, parsed)
    ensures r.headers == AuthenticationHeaders(config) + AttributeHeaders(attributes)
  {
    BareRequest(message, uri, config, parsed).(headers := AuthenticationHeaders(config) + AttributeHeaders(attributes))
  }

  /** The base URL reads back as a URI, which the options' constructor
      requires. A URI whose scheme has no default port and that gives none
      reports port -1, and `scheme://host:-1` does not parse. */
  predicate BaseUrlParses(uri: Uri) {
    uri.port >= 0
  }

  /** The origin of the redrive URL, `scheme://host:port`. */
  function BaseUrl(uri: Uri): string {
    uri.scheme + "://" + uri.host + ":" + Decimal.IntToString(uri.port)
  }

  /** The client that sends the request. */
  function OutboundClient(uri: Uri, config: ConfigurationEntry): (c: ClientSettings)
    ensures c.baseUrl == BaseUrl(uri)
    ensures c.timeout == config.timeout
    ensures c.acceptAnyCertificate <==> config.ignoreCertificateErrors
    ensures c.authenticator == BasicAuthenticatorFor(config)
  {
    ClientSettings(BaseUrl(uri), config.timeout, config.ignoreCertificateErrors, BasicAuthenticatorFor(config))
  }

  /** Success exactly when the transport succeeded with 200 or 201; otherwise
      the transport's exception if it caught one, else a status error. */
  function Interpret(response: Response): (r: Outcome<ProcessingError>)
    ensures r.Pass? <==> response.isSuccessful && (response.statusCode == StatusOK || response.statusCode == StatusCreated)
    ensures r.Fail? && response.errorException.Some? ==> r.error == TransportError(response.errorException.value)
    ensures r.Fail? && response.errorException.None? ==> r.error == StatusError(response.statusCode, response.content)
  {
    if response.isSuccessful && (response.statusCode == StatusOK || response.statusCode == StatusCreated) then Pass
    else
      match response.errorException
      case Some(e) => Fail(TransportError(e))
      case None => Fail(StatusError(response.statusCode, response.content))
  }

  // ---------------------------------------------------------------------
  // Properties of the specification

  lemma {:induction false} ForwardableEntriesMembership(entries: Parameters)
    ensures forall p :: p in ForwardableEntries(entries) <==> p in entries && Forwardable(p)
  {
    if entries != [] {
      var init := entries[..|entries| - 1];
      ForwardableEntriesMembership(init);
      assert entries == init + [entries[|entries| - 1]];
    }
  }

  lemma {:induction false} ForwardableEntriesAppend(a: Parameters, b: Parameters)
    ensures ForwardableEntries(a + b) == ForwardableEntries(a) + ForwardableEntries(b)
    decreases |b|
  {
    if b == [] {
      assert a + b == a;
    } else {
      var init := b[..|b| - 1];
      assert (a + b)[..|a + b| - 1] == a + init;
      ForwardableEntriesAppend(a, init);
    }
  }

  /** Filtering keeps order: a list of forwardable entries is kept whole. */
  lemma {:induction false} ForwardableEntriesKeepsAll(entries: Parameters)
    requires forall i :: 0 <= i < |entries| ==> Forwardable(entries[i])
    ensures ForwardableEntries(entries) == entries
  {
    if entries != [] {
      var init := entries[..|entries| - 1];
      ForwardableEntriesKeepsAll(init);
      assert entries == init + [entries[|entries| - 1]];
    }
  }

  /** The base URL ends with the port as written, after `scheme://host:`. */
  lemma BaseUrlPort(uri: Uri)
    ensures var url, n := BaseUrl(uri), |Decimal.IntToString(uri.port)|;
      n <= |url| &&
      url[..|url| - n] == uri.scheme + "://" + uri.host + ":" &&
      Decimal.ParseInt(url[|url| - n..]) == Some(uri.port)
  {
    var prefix := uri.scheme + "://" + uri.host + ":";
    var port := Decimal.IntToString(uri.port);
    assert BaseUrl(uri) == prefix + port;
    assert (prefix + port)[..|prefix|] == prefix;
    assert (prefix + port)[|prefix|..] == port;
    Decimal.IntRoundTrip(uri.port);
  }

  // ---------------------------------------------------------------------
  // The processor

  method CreateGetRequest(uri: Uri, parsed: Option<Parameters>) returns (request: RestRequest)
    ensures fresh(request)
    ensures request.Value() == Request(Get, uri.pathAndQuery, QueryParameters(parsed), [], None)
  {
    request := new RestRequest(uri.pathAndQuery, Get);
    match parsed {
      case None =>
        // the parse failed: a warning is logged and the request stays without parameters
      case Some(properties) =>
        for i := 0 to |properties|
          invariant request.Value() == Request(Get, uri.pathAndQuery, properties[..i], [], None)
        {
          request.AddQueryParameter(properties[i].0, properties[i].1);
          assert properties[..i + 1] == properties[..i] + [properties[i]];
        }
        assert properties[..|properties|] == properties;
    }
  }

  method CreatePostOrPutOrDeleteRequest(message: string, uri: Uri, config: ConfigurationEntry) returns (request: RestRequest)
    ensures fresh(request)
    ensures request.Value() == Request(BodyMethod(config), uri.pathAndQuery, [], [], Some(message))
  {
    request := new RestRequest(uri.pathAndQuery, BodyMethod(config));
    request.AddStringBody(message);
  }

  method CreateRequest(message: string, uri: Uri, config: ConfigurationEntry, parsed: Option<Parameters>) returns (request: RestRequest)
    ensures fresh(request)
    ensures request.Value() == BareRequest(message, uri, config, parsed)
  {
    if !config.useGET {
      request := CreatePostOrPutOrDeleteRequest(message, uri, config);
    } else {
      request := CreateGetRequest(uri, parsed);
    }
  }

  method CreateOptions(uri: Uri, config: ConfigurationEntry) returns (options: RestClientOptions?)
    ensures options == null <==> !BaseUrlParses(uri)
    ensures options != null ==>
      fresh(options) && options.baseUrl == BaseUrl(uri) &&
      (options.acceptAnyCertificate <==> config.ignoreCertificateErrors) &&
      options.timeout == config.timeout
  {
    if !BaseUrlParses(uri) {
      // the options' constructor raises on the unparsable base URL
      return null;
    }
    options := new RestClientOptions(BaseUrl(uri));
    if config.ignoreCertificateErrors {
      options.acceptAnyCertificate := true;
    }
    if config.timeout.Some? {
      options.timeout := Some(config.timeout.value);
    }
  }

  method AddAuthentication(client: RestClient, request: RestRequest, config: ConfigurationEntry)
    modifies client, request
    ensures request.Value() == old(request.Value()).(headers := old(request.headers) + AuthenticationHeaders(config))
    ensures client.Settings() == old(client.Settings()).(authenticator :=
      if BasicAuthenticatorFor(config).Some? then BasicAuthenticatorFor(config) else old(client.authenticator))
  {
    if config.awsGatewayToken != "" {
      request.AddHeader(ApiKeyHeader, config.awsGatewayToken);
    }
    if config.authToken != "" {
      request.AddHeader(AuthorizationHeader, config.authToken);
    }
    if config.basicAuthPassword != "" && config.basicAuthUserName != "" {
      client.authenticator := Some(BasicAuthenticator(config.basicAuthUserName, config.basicAuthPassword));
    }
  }

  method AddAttributes(request: RestRequest, attributes: Option<Parameters>)
    modifies request
    ensures request.Value() == old(request.Value()).(headers := old(request.headers) + AttributeHeaders(attributes))
  {
    if attributes.Some? {
      var entries := attributes.value;
      for i := 0 to |entries|
        invariant request.Value() == old(request.Value()).(headers := old(request.headers) + ForwardableEntries(entries[..i]))
      {
        assert entries[..i + 1][..i] == entries[..i];
        if Forwardable(entries[i]) {
          request.AddHeader(entries[i].0, entries[i].1);
        }
      }
      assert entries[..|entries|] == entries;
    }
  }

  method SendRequest(client: RestClient, request: RestRequest, execute: (Request, ClientSettings) -> Response)
    returns (outcome: Outcome<ProcessingError>)
    ensures outcome == Interpret(execute(request.Value(), client.Settings()))
  {
    var response := execute(request.Value(), client.Settings());
    if response.isSuccessful && (response.statusCode == StatusOK || response.statusCode == StatusCreated) {
      return Pass;
    }
    if response.errorException.Some? {
      return Fail(TransportError(response.errorException.value));
    }
    return Fail(StatusError(response.statusCode, response.content));
  }

  /** Builds the client and the request for one message, sends it and
      reports the result: Pass, or the error ProcessMessage raises. */
  method ProcessMessage(message: string, attributes: Option<Parameters>, config: ConfigurationEntry,
                        parsedUri: Option<Uri>, parsedJson: Option<Parameters>,
                        execute: (Request, ClientSettings) -> Response)
    returns (outcome: Outcome<ProcessingError>)
    ensures parsedUri.None? || !BaseUrlParses(parsedUri.value) ==> outcome == Fail(MalformedUrl)
    ensures parsedUri.Some? && BaseUrlParses(parsedUri.value) ==> outcome == Interpret(execute(
      OutboundRequest(message, attributes, config, parsedUri.value, parsedJson),
      OutboundClient(parsedUri.value, config)))
  {
    if parsedUri.None? {
      return Fail(MalformedUrl);
    }
    var uri := parsedUri.value;
    var options := CreateOptions(uri, config);
    if options == null {
      return Fail(MalformedUrl);
    }
    var client := new RestClient(options);
    var request := CreateRequest(message, uri, config, parsedJson);
    AddAuthentication(client, request, config);
    AddAttributes(request, attributes);
    assert [] + AuthenticationHeaders(config) == AuthenticationHeaders(config);
    assert request.Value() == OutboundRequest(message, attributes, config, uri, parsedJson);
    assert client.Settings() == OutboundClient(uri, config);
    outcome := SendRequest(client, request, execute);
  }
}
