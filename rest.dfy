/** The client surface every resource service is written against, whose
    code is not part of this model: `NewRequest`, `Do`, `Response` and
    `NewArgError`. They are modelled as an abstract transport. `NewRequest`
    either builds the request or reports an error, as an oracle decides;
    `Do` records the request in the client's log of issued requests, and
    the server oracle answers it from the history of what was sent before.
    When the answer carries no error, `Do` fills the destination the caller
    allocated, in place, with the server's answer decoded into that type. */
module Rest {
  import opened Wrappers
  import Json

  /** The HTTP methods the services use (`http.MethodGet`, ...). */
  datatype Method = GET | POST | PATCH | PUT | DELETE

  /** A resource as the client sees it: its server-assigned id and the rest
      of its decoded fields, kept opaque. */
  datatype Resource = Resource(id: int, attributes: map<string, Json.Value>)

  /** What `new(T)` allocates for a resource type: every field zero. */
  const ZeroResource := Resource(0, map[])

  /** A list envelope `{count, next, previous, results}` plus the untagged
      field each service's root struct declares (`JobTemplate`,
      `Project`, `Inventory`, ...), here called `embedded`. */
  datatype Envelope = Envelope(count: int, next: int, previous: int,
                               results: seq<Resource>, embedded: Option<Resource>)

  /** The errors a service returns: `NewArgError(argument, reason)`, or an
      error reported by `NewRequest` or `Do`, whose kinds are not shown. */
  datatype Error = ArgError(argument: string, reason: string) | Failed(cause: string)

  /** `*Response`: the wrapper `Do` returns around the HTTP response. */
  datatype Response = Response(status: int)

  /** An outgoing request: HTTP method, path relative to the base URL, and the
      encoded JSON payload if one was given. */
  datatype Request = Request(verb: Method, path: string, body: Option<Json.Value>)

  /** The server's answer to one request, with the body decoded both ways a
      caller may ask for it (into a list envelope, into one resource). */
  datatype Reply = Reply(response: Option<Response>, error: Option<Error>,
                         envelope: Envelope, resource: Resource)

  /** How far a service call got with the request it planned: stopped
      before sending (its own argument check, or `NewRequest`, failed), or
      sent and answered. */
  datatype Exchange = Refused(error: Error) | Answered(reply: Reply)

  /** The reason every id argument check gives. */
  const LessThanOne := "cannot be less than 1"
  /** The reason every payload argument check gives. */
  const IsNil := "cannot be nil"
  /** The argument name every payload argument check gives. */
  const CreateRequestArgument := "createRequest"

  /** A root of a service's `...Root` struct type, allocated by the caller and filled by `Do`. */
  class EnvelopeRoot {
    var count: int
    var next: int
    var previous: int
    var results: seq<Resource>
    var embedded: Option<Resource>

    function View(): Envelope
      reads this
    {
      Envelope(count, next, previous, results, embedded)
    }

    /** `new(jobTemplateRoot)` and the like: all fields zero, optional fields nil. */
    constructor ()
      ensures View() == Envelope(0, 0, 0, [], None)
    {
      count, next, previous, results, embedded := 0, 0, 0, [], None;
    }
  }

  /** A resource allocated by the caller (`new(JobTemplate)`) and filled by `Do`. */
  class ResourceRoot {
    var value: Resource

    constructor ()
      ensures value == ZeroResource
    {
      value := ZeroResource;
    }
  }

  /** The third argument of `Do`: nil, or the object to decode into. */
  datatype Destination = Nowhere | IntoEnvelope(root: EnvelopeRoot) | IntoResource(obj: ResourceRoot)

  function Targets(d: Destination): set<object>
  {
    match d
    case Nowhere => {}
    case IntoEnvelope(root) => {root}
    case IntoResource(obj) => {obj}
  }

  class Client {
    /** Every request handed to `Do`, in order: a log kept by the model,
        not a field of the Go client. It is not ghost because `server`
        answers from it. */
    var sent: seq<Request>
    /** Whether `NewRequest` refuses to build a request (for instance because
        the payload cannot be encoded), and with which error. */
    const refuse: Request -> Option<Error>
    /** The server: its answer to a request, given the requests sent before it. */
    const server: (seq<Request>, Request) -> Reply

    constructor (refuse: Request -> Option<Error>, server: (seq<Request>, Request) -> Reply)
      ensures sent == [] && this.refuse == refuse && this.server == server
    {
      sent := [];
      this.refuse := refuse;
      this.server := server;
    }

    /** `NewRequest(ctx, method, path, body)`: builds the request, or reports
        the error the oracle names; sends nothing. */
    function NewRequest(verb: Method, path: string, body: Option<Json.Value>): (r: Result<Request, Error>)
      ensures r.Success? <==> refuse(Request(verb, path, body)).None?
      ensures r.Success? ==> r.value == Request(verb, path, body)
      ensures r.Failure? ==> Some(r.error) == refuse(Request(verb, path, body))
    {
      var req := Request(verb, path, body);
      match refuse(req)
      case None => Success(req)
      case Some(e) => Failure(e)
    }

    /** The answer the next `Do(req, ...)` will get. */
    function Answer(req: Request): Reply
      reads this
    {
      server(sent, req)
    }

    /** The outcome of a call whose argument checks produced `plan`: the
        argument error, the `NewRequest` error, or the server's reply. */
    function Exchange(plan: Result<Request, Error>): Exchange
      reads this
    {
      match plan
      case Failure(e) => Refused(e)
      case Success(req) =>
        match refuse(req)
        case Some(e) => Refused(e)
        case None => Answered(Answer(req))
    }

    /** The log once such a call returns: the planned request is appended
        exactly when it was sent. */
    function LogAfter(plan: Result<Request, Error>): seq<Request>
      reads this
    {
      if Exchange(plan).Answered? then sent + [plan.value] else sent
    }

    /** `Do(ctx, req, v)`: sends `req`, and on an answer without error
        decodes the body into the destination `v` in place. */
    method Do(req: Request, dest: Destination) returns (resp: Option<Response>, err: Option<Error>)
      modifies this`sent, Targets(dest)
      ensures sent == old(sent) + [req]
      ensures var reply := old(Answer(req));
        && resp == reply.response && err == reply.error
        && (dest.IntoEnvelope? ==>
              dest.root.View() == if err.None? then reply.envelope else old(dest.root.View()))
        && (dest.IntoResource? ==>
              dest.obj.value == if err.None? then reply.resource else old(dest.obj.value))
    {
      var reply := server(sent, req);
      sent := sent + [req];
      resp, err := reply.response, reply.error;
      if err.None? {
        match dest
        case Nowhere =>
        case IntoEnvelope(root) =>
          var e := reply.envelope;
          root.count, root.next, root.previous, root.results, root.embedded :=
            e.count, e.next, e.previous, e.results, e.embedded;
        case IntoResource(obj) =>
          obj.value := reply.resource;
      }
    }
  }
}
