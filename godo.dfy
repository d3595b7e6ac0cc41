/** awx/godo.go: the `Client` that holds the credentials and base URL, and
    `doRequest`, which signs a request with basic authentication, sends it,
    reads the whole answer and accepts it only when the status is exactly
    200. The network is a world object: it records every request that goes
    out, and a transport oracle answers each one from the history before
    it. `http.NewRequest`, whose code is not shown, either builds a request
    or fails as an oracle decides. */
module Godo {
  import opened Wrappers
  import Json
  import BasicAuth

  type Byte = BasicAuth.Byte

  /** A request as it goes out: method, URL, header and payload. */
  datatype Outgoing = Outgoing(verb: string, url: string, header: map<string, string>,
                               body: Option<Json.Value>)

  /** What `http.Client.Do` and then reading the whole body give: a transport
      error, or a status code with the body or the error that reading it hit. */
  datatype Exchange =
    | TransportFailed(cause: string)
    | Received(status: int, body: Result<seq<Byte>, string>)

  /** The errors a call hands back. A status error's message is the body as
      text, the way `fmt.Errorf("%s", body)` formats it. */
  datatype Error =
    | RequestError(cause: string)
    | TransportError(cause: string)
    | ReadError(cause: string)
    | StatusError(message: seq<Byte>)

  /** The status `doRequest` accepts. */
  const StatusOK := 200

  /** What `doRequest` returns for an exchange: the body, unchanged, for
      status 200; otherwise the error, the transport's and the read's first. */
  function Classify(x: Exchange): (r: Result<seq<Byte>, Error>)
    ensures r.Success? <==> x.Received? && x.body.Success? && x.status == StatusOK
    ensures r.Success? ==> r.value == x.body.value
    ensures x.TransportFailed? ==> r == Failure(TransportError(x.cause))
    ensures x.Received? && x.body.Failure? ==> r == Failure(ReadError(x.body.error))
    ensures x.Received? && x.body.Success? && x.status != StatusOK ==>
      r == Failure(StatusError(x.body.value))
  {
    match x
    case TransportFailed(cause) => Failure(TransportError(cause))
    case Received(status, body) =>
      if body.Failure? then Failure(ReadError(body.error))
      else if StatusOK != status then Failure(StatusError(body.value))
      else Success(body.value)
  }

  /** Other success codes are errors too, carrying the body as their message. */
  lemma CreatedAndNoContentAreErrors(body: seq<Byte>)
    ensures Classify(Received(201, Success(body))) == Failure(StatusError(body))
    ensures Classify(Received(204, Success(body))) == Failure(StatusError(body))
  {
  }

  /** `*http.Request`: the header is what `SetBasicAuth` changes in place. */
  class HttpRequest {
    const verb: string
    const url: string
    const body: Option<Json.Value>
    var header: map<string, string>

    constructor (verb: string, url: string, body: Option<Json.Value>)
      ensures this.verb == verb && this.url == url && this.body == body && header == map[]
    {
      this.verb, this.url, this.body := verb, url, body;
      header := map[];
    }

    /** The request as it would go out now. */
    function Snapshot(): Outgoing
      reads this
    {
      Outgoing(verb, url, header, body)
    }

    /** `req.SetBasicAuth(username, password)`. */
    method SetBasicAuth(username: seq<Byte>, password: seq<Byte>)
      modifies this`header
      ensures header == old(header)[BasicAuth.AuthorizationKey := BasicAuth.Credentials(username, password)]
    {
      header := header[BasicAuth.AuthorizationKey := BasicAuth.Credentials(username, password)];
    }
  }

  class Network {
    /** Every request that went out, in order. */
    var sent: seq<Outgoing>
    /** Whether `http.NewRequest(method, url, body)` fails, and why. */
    const reject: (string, string) -> Option<string>
    /** The answer to a request, given the requests sent before it. */
    const transport: (seq<Outgoing>, Outgoing) -> Exchange

    constructor (reject: (string, string) -> Option<string>, transport: (seq<Outgoing>, Outgoing) -> Exchange)
      ensures sent == [] && this.reject == reject && this.transport == transport
    {
      sent := [];
      this.reject, this.transport := reject, transport;
    }

    /** `http.NewRequest(method, url, body)`: a fresh request without header,
        or the error. */
    method NewRequest(verb: string, url: string, body: Option<Json.Value>) returns (req: HttpRequest?, err: Option<Error>)
      ensures reject(verb, url).Some? ==> req == null && err == Some(RequestError(reject(verb, url).value))
      ensures reject(verb, url).None? ==>
        err == None && req != null && fresh(req) && req.verb == verb && req.url == url && req.body == body
        && req.header == map[]
    {
      match reject(verb, url)
      case Some(cause) =>
        req, err := null, Some(RequestError(cause));
      case None =>
        req := new HttpRequest(verb, url, body);
        err := None;
    }

    /** How a call ends that builds `verb url body` with `http.NewRequest`
        and hands it to `c.DoRequest`. */
    function Call(c: Client, verb: string, url: string, body: Option<Json.Value>): Result<seq<Byte>, Error>
      reads this, c
    {
      match reject(verb, url)
      case Some(cause) => Failure(RequestError(cause))
      case None => Classify(transport(sent, Outgoing(verb, url, c.SignedHeader(), body)))
    }

    /** The log once such a call returns: the signed request is appended
        exactly when it was built. */
    function LogAfterCall(c: Client, verb: string, url: string, body: Option<Json.Value>): seq<Outgoing>
      reads this, c
    {
      if reject(verb, url).Some? then sent else sent + [Outgoing(verb, url, c.SignedHeader(), body)]
    }

    /** `(&http.Client{}).Do(req)` followed by reading the body. */
    method RoundTrip(out: Outgoing) returns (x: Exchange)
      modifies this`sent
      ensures sent == old(sent) + [out]
      ensures x == transport(old(sent), out)
    {
      x := transport(sent, out);
      sent := sent + [out];
    }
  }

  /** awx/godo.go's `Client`. */
  class Client {
    var username: seq<Byte>
    var password: seq<Byte>
    var baseURL: string

    constructor (username: seq<Byte>, password: seq<Byte>, baseURL: string)
      ensures this.username == username && this.password == password && this.baseURL == baseURL
    {
      this.username, this.password, this.baseURL := username, password, baseURL;
    }

    /** The header every request carries once signed. */
    function SignedHeader(): map<string, string>
      reads this
    {
      map[BasicAuth.AuthorizationKey := BasicAuth.Credentials(username, password)]
    }

    /** `doRequest(req)`: signs `req` in place, sends it as signed, and
        classifies the answer. The client itself is left as it was. */
    method DoRequest(req: HttpRequest, net: Network) returns (body: Option<seq<Byte>>, err: Option<Error>)
      modifies req`header, net`sent
      ensures req.header == old(req.header)[BasicAuth.AuthorizationKey := BasicAuth.Credentials(username, password)]
      ensures net.sent == old(net.sent) + [req.Snapshot()]
      ensures var r := Classify(net.transport(old(net.sent), req.Snapshot()));
        && body == (if r.Success? then Some(r.value) else None)
        && err == (if r.Failure? then Some(r.error) else None)
      ensures unchanged(this)
    {
      req.SetBasicAuth(username, password);
      var x := net.RoundTrip(req.Snapshot());
      match Classify(x)
      case Success(b) =>
        body, err := Some(b), None;
      case Failure(e) =>
        body, err := None, Some(e);
    }
  }
}
