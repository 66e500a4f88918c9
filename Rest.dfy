/** The HTTP client library objects the message processor builds and mutates:
    a request, the client options and the client. Only the state the
    processor sets is modelled; executing a request is left to a caller-given
    function (see HttpMessageProcessor.SendRequest). */
module Rest {
  import opened Wrappers

  datatype Method = Get | Post | Put | Delete

  /** A name/value list kept in the order the entries were added. */
  type Parameters = seq<(string, string)>

  /** The value of a request: what is sent. A body is always in JSON data
      format, so only its text is kept. */
  datatype Request = Request(
    verb: Method,
    resource: string,
    queryParameters: Parameters,
    headers: Parameters,
    body: Option<string>)

  datatype BasicAuthenticator = BasicAuthenticator(userName: string, password: string)

  /** The value of a client: where and how requests are sent. */
  datatype ClientSettings = ClientSettings(
    baseUrl: string,
    timeout: Option<int>,
    /** True when a certificate-validation callback accepting every
        certificate is installed. */
    acceptAnyCertificate: bool,
    authenticator: Option<BasicAuthenticator>)

  /** What executing a request reports. */
  datatype Response = Response(
    isSuccessful: bool,
    statusCode: int,
    /** The transport-level exception caught by the library, if any. */
    errorException: Option<string>,
    content: string)

  class RestRequest {
    var verb: Method
    var resource: string
    var queryParameters: Parameters
    var headers: Parameters
    var body: Option<string>

    function Value(): Request
      reads this
    {
      Request(verb, resource, queryParameters, headers, body)
    }

    constructor (resource: string, verb: Method)
      ensures Value() == Request(verb, resource, [], [], None)
    {
      this.verb := verb;
      this.resource := resource;
      queryParameters := [];
      headers := [];
      body := None;
    }

    method AddQueryParameter(name: string, value: string)
      modifies this
      ensures Value() == old(Value()).(queryParameters := old(queryParameters) + [(name, value)])
    {
      queryParameters := queryParameters + [(name, value)];
    }

    method AddHeader(name: string, value: string)
      modifies this
      ensures Value() == old(Value()).(headers := old(headers) + [(name, value)])
    {
      headers := headers + [(name, value)];
    }

    /** Sets the body text, in JSON data format. */
    method AddStringBody(text: string)
      modifies this
      ensures Value() == old(Value()).(body := Some(text))
    {
      body := Some(text);
    }
  }

  class RestClientOptions {
    var baseUrl: string
    var timeout: Option<int>
    var acceptAnyCertificate: bool

    constructor (baseUrl: string)
      ensures this.baseUrl == baseUrl && timeout == None && !acceptAnyCertificate
    {
      this.baseUrl := baseUrl;
      timeout := None;
      acceptAnyCertificate := false;
    }
  }

  class RestClient {
    const baseUrl: string
    const timeout: Option<int>
    const acceptAnyCertificate: bool
    var authenticator: Option<BasicAuthenticator>

    function Settings(): ClientSettings
      reads this
    {
      ClientSettings(baseUrl, timeout, acceptAnyCertificate, authenticator)
    }

    /** A client takes its options when it is built and has no authenticator. */
    constructor (options: RestClientOptions)
      ensures Settings() == ClientSettings(options.baseUrl, options.timeout, options.acceptAnyCertificate, None)
    {
      baseUrl := options.baseUrl;
      timeout := options.timeout;
      acceptAnyCertificate := options.acceptAnyCertificate;
      authenticator := None;
    }
  }
}
