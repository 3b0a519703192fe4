/**
 * The Enom reseller client's request pipeline (`Services/HttpClient.php`):
 * the client's fields, the injection of the four reserved parameters into a
 * by-value copy of the payload, the record of the last request and response,
 * and the ErrCount/Err1 error decision.
 *
 * The cURL transport, `http_build_query` and `simplexml_load_string` are not
 * modelled; a `Transport` value standing for all three is supplied to every
 * request.
 */
module HttpClient {
  import opened Wrappers

  /** A scalar value stored under a payload key; `Null` is PHP's null. */
  datatype Value = Str(s: string) | Int(n: int) | Null

  /** The request parameters: key to value. */
  type Payload = map<string, Value>

  /**
   * What the XML parser yields: the `ErrCount` element, if present, with its
   * value as `(int)` casts it, and the text of `errors/Err1` ("" when absent).
   */
  datatype Xml = Xml(errCount: Option<int>, err1: string)

  /** What cURL yields: the body (`None` when `curl_exec` fails) and the HTTP status code. */
  datatype Fetched = Fetched(body: Option<string>, httpCode: int)

  /**
   * The collaborators the client calls: the query-string encoder
   * (`http_build_query`), one blocking GET of a URL, and the XML parser
   * (`None` when the body is not XML).
   */
  datatype Transport = Transport(
    buildQuery: Payload -> string,
    fetch: string -> Fetched,
    parse: string -> Option<Xml>)

  /** The result of `makeRequest`: it returns nothing, or throws an `EnomException`. */
  datatype CallResult = Completed | ApiError(message: string)

  /**
   * The result of a command wrapper: the value it returns, an
   * `InvalidArgumentException` raised before any request, or the
   * `EnomException` coming out of the request.
   */
  datatype Outcome<T> = Returned(value: T) | InvalidArgument(message: string) | EnomError(message: string)

  /** A wrapper that returns `v` once its request has completed. */
  function Lift<T>(c: CallResult, v: T): (o: Outcome<T>)
  {
    match c
    case Completed => Returned(v)
    case ApiError(m) => EnomError(m)
  }

  /** Key `k` has the same entry (or the same absence) in `p` and `q`. */
  predicate Kept(p: Payload, q: Payload, k: string)
  {
    (k in q <==> k in p) && (k in p ==> q[k] == p[k])
  }

  /** The keys `makeRequest` always sets itself. */
  const Reserved: set<string> := {"command", "uid", "pw", "responsetype"}

  /**
   * The parameters actually sent: the caller's payload with the four reserved
   * keys set last, so that they override whatever the caller stored under them.
   */
  function Inject(payload: Payload, command: string, uid: string, pw: string): (sent: Payload)
    ensures sent.Keys == payload.Keys + Reserved
    ensures sent["command"] == Str(command) && sent["uid"] == Str(uid)
    ensures sent["pw"] == Str(pw) && sent["responsetype"] == Str("XML")
    ensures forall k :: k in payload && k !in Reserved ==> sent[k] == payload[k]
  {
    payload["command" := Str(command)]["uid" := Str(uid)]["pw" := Str(pw)]["responsetype" := Str("XML")]
  }

  /** What the caller stored under the reserved keys has no effect on what is sent. */
  lemma InjectOverridesReserved(p: Payload, q: Payload, command: string, uid: string, pw: string)
    requires p - Reserved == q - Reserved
    ensures Inject(p, command, uid, pw) == Inject(q, command, uid, pw)
  {
    var a, b := Inject(p, command, uid, pw), Inject(q, command, uid, pw);
    forall k | k !in Reserved
      ensures (k in p <==> k in q) && (k in p ==> p[k] == q[k])
    {
      assert (k in p <==> k in p - Reserved) && (k in q <==> k in q - Reserved);
      if k in p {
        assert (p - Reserved)[k] == p[k] && (q - Reserved)[k] == q[k];
      }
    }
    assert a.Keys == b.Keys;
  }

  /** Injecting into an already sent map changes nothing. */
  lemma InjectIdempotent(p: Payload, command: string, uid: string, pw: string)
    ensures Inject(Inject(p, command, uid, pw), command, uid, pw) == Inject(p, command, uid, pw)
  {
    var a := Inject(p, command, uid, pw);
    var b := Inject(a, command, uid, pw);
    assert b.Keys == a.Keys;
    forall k | k in a ensures b[k] == a[k] {
      if k !in Reserved {
        assert k in p;
      }
    }
  }

  /** The URL of the request for the given parameters. */
  function RequestUrl(baseUrl: string, net: Transport, sent: Payload): (req: string)
  {
    baseUrl + "/interface.asp?" + net.buildQuery(sent)
  }

  /** The parsed document for a body; a failed transfer (`false`) parses to nothing. */
  function ParseBody(net: Transport, body: Option<string>): (xml: Option<Xml>)
  {
    if body.Some? then net.parse(body.value) else None
  }

  /**
   * The error decision: an `EnomException` carrying `errors/Err1` exactly when
   * the document has an `ErrCount` whose integer value is positive.
   */
  function Decide(xml: Option<Xml>): (r: CallResult)
    ensures r.ApiError? <==> xml.Some? && xml.value.errCount.Some? && xml.value.errCount.value > 0
    ensures r.ApiError? ==> r.message == xml.value.err1
  {
    if xml.Some? && xml.value.errCount.Some? && xml.value.errCount.value > 0
    then ApiError(xml.value.err1)
    else Completed
  }

  /** No `ErrCount`, an `ErrCount` of zero or below, or no document at all: no error. */
  lemma NoErrorWithoutPositiveCount(xml: Option<Xml>)
    requires xml.None? || xml.value.errCount.None? || xml.value.errCount.value <= 0
    ensures Decide(xml) == Completed
  {
  }

  /**
   * Responses in the shapes the API uses: `ErrCount` 0 is success, `ErrCount` 1
   * fails with the text of `Err1`, and a body that is not XML raises nothing.
   */
  lemma DecideExamples()
    ensures Decide(Some(Xml(Some(0), ""))) == Completed
    ensures Decide(Some(Xml(Some(1), "Invalid domain"))) == ApiError("Invalid domain")
    ensures Decide(Some(Xml(Some(3), "first"))) == ApiError("first")
    ensures Decide(None) == Completed
  {
  }

  /** All fields of a client, as one value. */
  datatype Fields = Fields(
    url: string, username: string, password: string, payload: Payload,
    request: Option<string>, response: Option<string>, httpCode: Option<int>, xmlResponse: Option<Xml>)

  /**
   * The fields `f` record the request `command` with parameters `params`
   * (before injection): `request`, `response`, `httpCode` and `xmlResponse`
   * describe that call.
   */
  ghost predicate RecordedIn(f: Fields, command: string, params: Payload, net: Transport)
  {
    var req := RequestUrl(f.url, net, Inject(params, command, f.username, f.password));
    var fetched := net.fetch(req);
    && f.request == Some(req)
    && f.response == fetched.body
    && f.httpCode == Some(fetched.httpCode)
    && f.xmlResponse == ParseBody(net, fetched.body)
  }

  /**
   * The client. `None` stands for a field that PHP leaves `null` (before the first
   * request) or sets to `false` (a failed transfer, a body that is not XML).
   */
  class HttpClient {
    var url: string
    var username: string
    var password: string
    var payload: Payload
    var request: Option<string>
    var response: Option<string>
    var httpCode: Option<int>
    var xmlResponse: Option<Xml>

    ghost function State(): Fields
      reads this
    {
      Fields(url, username, password, payload, request, response, httpCode, xmlResponse)
    }

    ghost function Credentials(): (string, string, string)
      reads this
    {
      (url, username, password)
    }

    /** The last request was `command` with the parameters `params`. */
    ghost predicate Recorded(command: string, params: Payload, net: Transport)
      reads this
    {
      RecordedIn(State(), command, params, net)
    }

    /** The last request was `command` with the current payload. */
    ghost predicate Sent(command: string, net: Transport)
      reads this
    {
      Recorded(command, payload, net)
    }

    /** A new client holds exactly the given credentials and an empty payload. */
    constructor (url: string, username: string, password: string)
      ensures State() == Fields(url, username, password, map[], None, None, None, None)
    {
      this.url := url;
      this.username := username;
      this.password := password;
      this.payload := map[];
      this.request := None;
      this.response := None;
      this.httpCode := None;
      this.xmlResponse := None;
    }

    /**
     * Sends `command` with the given parameters. The injection works on a copy,
     * so the stored payload and the credentials are left as they were; the
     * request, response, status and document are recorded before the error
     * decision, so they describe the call whether or not it fails.
     */
    method MakeRequest(command: string, params: Payload, net: Transport) returns (r: CallResult)
      modifies this
      ensures Credentials() == old(Credentials()) && payload == old(payload)
      ensures Recorded(command, params, net)
      ensures r == Decide(xmlResponse)
    {
      var sent := params;
      sent := sent["command" := Str(command)];
      sent := sent["uid" := Str(username)];
      sent := sent["pw" := Str(password)];
      sent := sent["responsetype" := Str("XML")];

      var req := url + "/interface.asp?" + net.buildQuery(sent);
      request := Some(req);

      var fetched := net.fetch(req);
      httpCode := Some(fetched.httpCode);
      response := fetched.body;
      var xml := if fetched.body.Some? then net.parse(fetched.body.value) else None;
      xmlResponse := xml;

      if xml.Some? && xml.value.errCount.Some? && xml.value.errCount.value > 0 {
        r := ApiError(xml.value.err1);
      } else {
        r := Completed;
      }
    }

    // Getters: each reads back one component of the client's state.

    function GetUrl(): (u: string) reads this ensures u == State().url { url }
    function GetUsername(): (u: string) reads this ensures u == State().username { username }
    function GetPassword(): (p: string) reads this ensures p == State().password { password }
    function GetPayload(): (p: Payload) reads this ensures p == State().payload { payload }
    function GetRequest(): (r: Option<string>) reads this ensures r == State().request { request }
    function GetResponse(): (r: Option<string>) reads this ensures r == State().response { response }
    function GetXmlResponse(): (x: Option<Xml>) reads this ensures x == State().xmlResponse { xmlResponse }
    function GetHttpCode(): (c: Option<int>) reads this ensures c == State().httpCode { httpCode }

    // Setters: each changes its own field and no other.

    method SetUrl(url: string)
      modifies this
      ensures GetUrl() == url && State() == old(State()).(url := url)
    {
      this.url := url;
    }

    method SetUsername(username: string)
      modifies this
      ensures GetUsername() == username && State() == old(State()).(username := username)
    {
      this.username := username;
    }

    method SetPassword(password: string)
      modifies this
      ensures GetPassword() == password && State() == old(State()).(password := password)
    {
      this.password := password;
    }

    method SetPayload(payload: Payload)
      modifies this
      ensures GetPayload() == payload && State() == old(State()).(payload := payload)
    {
      this.payload := payload;
    }

    method SetRequest(request: Option<string>)
      modifies this
      ensures GetRequest() == request && State() == old(State()).(request := request)
    {
      this.request := request;
    }

    method SetResponse(response: Option<string>)
      modifies this
      ensures GetResponse() == response && State() == old(State()).(response := response)
    {
      this.response := response;
    }

    method SetXmlResponse(xmlResponse: Option<Xml>)
      modifies this
      ensures GetXmlResponse() == xmlResponse && State() == old(State()).(xmlResponse := xmlResponse)
    {
      this.xmlResponse := xmlResponse;
    }

    method SetHttpCode(httpCode: Option<int>)
      modifies this
      ensures GetHttpCode() == httpCode && State() == old(State()).(httpCode := httpCode)
    {
      this.httpCode := httpCode;
    }
  }

  /**
   * Against a transport that answers the same URL the same way, repeating a
   * request leaves the client exactly as the first one did.
   */
  lemma SameRequestSameRecord(c: Fields, d: Fields, command: string, net: Transport)
    requires c.url == d.url && c.username == d.username && c.password == d.password && c.payload == d.payload
    requires RecordedIn(c, command, c.payload, net) && RecordedIn(d, command, d.payload, net)
    ensures c == d
  {
  }
}
