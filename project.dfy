/** awx/project.go: the project service, `api/v2/projects/`. It has no Update,
    and Create hands back the envelope's untagged `Project` field. */
module Project {
  import opened Wrappers
  import Json
  import Fmt
  import opened Rest

  /** `projectBasePath`. */
  const BasePath := "api/v2/projects/"
  /** The argument name the id checks of Get and Delete report. */
  const IdArgument := "projectID"

  /** The fields of `ProjectCreateRequest`, in declaration order. */
  datatype Field =
    | Name
    | Description
    | LocalPath
    | ScmType
    | ScmURL
    | ScmBranch
    | ScmClean
    | ScmDeleteOnUpdate
    | Credential
    | Timeout
    | Organization
    | ScmUpdateOnLaunch
    | ScmUpdateCacheTimeout
    | CustomVirtualenv

  /** Every field. */
  const Fields: set<Field> := set f: Field | true
  const Order: seq<Field> := [Name, Description, LocalPath, ScmType, ScmURL, ScmBranch, ScmClean, ScmDeleteOnUpdate, Credential, Timeout, Organization, ScmUpdateOnLaunch, ScmUpdateCacheTimeout, CustomVirtualenv]

  /** The key each field's `json` tag names. */
  function Key(f: Field): string
  {
    match f
    case Name => "name"
    case Description => "description"
    case LocalPath => "local_path"
    case ScmType => "scm_type"
    case ScmURL => "scm_url"
    case ScmBranch => "scm_branch"
    case ScmClean => "scm_clean"
    case ScmDeleteOnUpdate => "scm_delete_on_update"
    case Credential => "credential"
    case Timeout => "timeout"
    case Organization => "organization"
    case ScmUpdateOnLaunch => "scm_update_on_launch"
    case ScmUpdateCacheTimeout => "scm_update_cache_timeout"
    case CustomVirtualenv => "custom_virtualenv"
  }

  /** The Go type of each field. */
  function KindOf(f: Field): Json.Kind
  {
    match f
    case Name | Description | LocalPath | ScmType | ScmURL | ScmBranch | CustomVirtualenv => Json.StrKind
    case Credential | Timeout | Organization | ScmUpdateCacheTimeout => Json.IntKind
    case ScmClean | ScmDeleteOnUpdate | ScmUpdateOnLaunch => Json.BoolKind
  }

  /** Whether a field's tag lacks `omitempty`: only `name`. */
  predicate Keep(f: Field)
  {
    f == Name
  }

  /** A `ProjectCreateRequest` value: each field holds a value of its type. */
  type CreateRequest = r: map<Field, Json.Value> | Json.IsStruct(Fields, KindOf, r)
    witness Json.ZeroStruct(Fields, KindOf)

  /** The request with only `Name` set, every other field zero. */
  function Named(name: string): (r: CreateRequest)
    ensures r[Name] == Json.Str(name)
    ensures forall f :: f in r && f != Name ==> r[f] == Json.Zero(KindOf(f)) && Json.IsEmptyValue(r[f])
  {
    Json.ZeroStruct(Fields, KindOf)[Name := Json.Str(name)]
  }

  /** The members the payload carries, by field: `name` always, any other
      field exactly when it is not empty, each with the field's value. */
  function Payload(r: CreateRequest): (obj: map<Field, Json.Value>)
    ensures Name in obj
    ensures forall f :: f in obj <==> f in r && (f == Name || !Json.IsEmptyValue(r[f]))
    ensures forall f :: f in obj ==> obj[f] == r[f]
  {
    Json.Marshal(r, Keep)
  }

  /** What encoding writes for the fields `order` of `r`: each in turn,
      under its key, skipping the empty `omitempty` ones. */
  function Members(order: seq<Field>, r: CreateRequest): seq<Json.Member>
  {
    if order == [] then []
    else
      var f := order[0];
      (if f in r && (Keep(f) || !Json.IsEmptyValue(r[f])) then [Json.Member(Key(f), r[f])] else [])
        + Members(order[1..], r)
  }

  /** The encoded payload `NewRequest` is handed. */
  function Body(r: CreateRequest): Json.Value
  {
    Json.Object(Members(Order, r))
  }

  /** Encoding writes exactly the members `Payload` names, in the order given. */
  lemma {:induction false} MembersArePayload(order: seq<Field>, r: CreateRequest)
    ensures Members(order, r) == Json.Wire(order, Key, Payload(r))
    decreases |order|
  {
    if order != [] {
      MembersArePayload(order[1..], r);
    }
  }

  /** The body on the wire lists the members `Payload` names in declaration order. */
  lemma BodyIsPayload(r: CreateRequest)
    ensures Body(r) == Json.Object(Json.Wire(Order, Key, Payload(r)))
  {
    MembersArePayload(Order, r);
  }

  /** Decoding the payload gives the request back: no field is lost, since
      an omitted field held its zero value. */
  lemma PayloadRoundTrip(r: CreateRequest)
    ensures Json.Unmarshal(Fields, KindOf, Payload(r)) == r
  {
    Json.UnmarshalMarshal(Fields, KindOf, Keep, r);
  }

  /** A request with only its name set is sent as `{"name": ...}` alone. */
  lemma NamedPayload(name: string)
    ensures Payload(Named(name)) == map[Name := Json.Str(name)]
  {
    var r := Named(name);
    Json.MarshalOnly(r, Keep, {Name});
    assert (map f | f in r && f in {Name} :: r[f]) == map[Name := Json.Str(name)];
  }

  /** The request `List` issues. */
  const ListRequest := Request(GET, BasePath, None)

  /** What `Get(id)` plans: the argument error for an id below 1, else a GET
      of the item's path, which names exactly that id. */
  function PlanGet(id: int): (p: Result<Request, Error>)
    ensures p.Failure? <==> id < 1
    ensures p.Failure? ==> p.error == ArgError(IdArgument, LessThanOne)
    ensures p.Success? ==>
      p.value.verb == GET && p.value.body == None && Fmt.ItemIdOf(BasePath, p.value.path) == Some(id)
  {
    if id < 1 then Failure(ArgError(IdArgument, LessThanOne))
    else
      Fmt.ItemPathRoundTrip(BasePath, id);
      Success(Request(GET, Fmt.ItemPath(BasePath, id), None))
  }

  /** What `Create(r)` plans: the argument error for a nil request, else a
      POST of its payload to the collection path. */
  function PlanCreate(r: Option<CreateRequest>): (p: Result<Request, Error>)
    ensures p.Failure? <==> r.None?
    ensures p.Failure? ==> p.error == ArgError(CreateRequestArgument, IsNil)
    ensures p.Success? ==>
      p.value.verb == POST && p.value.path == BasePath && p.value.body == Some(Body(r.value))
  {
    if r.None? then Failure(ArgError(CreateRequestArgument, IsNil))
    else Success(Request(POST, BasePath, Some(Body(r.value))))
  }

  /** What `Delete(id)` plans: the argument error for an id below 1, else a
      DELETE of the item's path, which names exactly that id. */
  function PlanDelete(id: int): (p: Result<Request, Error>)
    ensures p.Failure? <==> id < 1
    ensures p.Failure? ==> p.error == ArgError(IdArgument, LessThanOne)
    ensures p.Success? ==>
      p.value.verb == DELETE && p.value.body == None && Fmt.ItemIdOf(BasePath, p.value.path) == Some(id)
  {
    if id < 1 then Failure(ArgError(IdArgument, LessThanOne))
    else
      Fmt.ItemPathRoundTrip(BasePath, id);
      Success(Request(DELETE, Fmt.ItemPath(BasePath, id), None))
  }

  /** `ProjectServiceOp`: the service bound to a client. */
  class ServiceOp {
    const client: Client

    constructor (client: Client)
      ensures this.client == client
    {
      this.client := client;
    }

    /** `List(ctx)`: the `results` of the list envelope. */
    method List() returns (results: seq<Resource>, resp: Option<Response>, err: Option<Error>)
      modifies client`sent
      ensures client.sent == old(client.LogAfter(Success(ListRequest)))
      ensures match old(client.Exchange(Success(ListRequest)))
        case Refused(e) => results == [] && resp == None && err == Some(e)
        case Answered(reply) =>
          && resp == reply.response && err == reply.error
          && results == if err.None? then reply.envelope.results else []
    {
      var path := BasePath;
      var made := client.NewRequest(GET, path, None);
      if made.Failure? {
        return [], None, Some(made.error);
      }
      var root := new EnvelopeRoot();
      resp, err := client.Do(made.value, IntoEnvelope(root));
      if err.Some? {
        return [], resp, err;
      }
      return root.results, resp, err;
    }

    /** `Get(ctx, id)`: the resource the server answers with. */
    method Get(id: int) returns (obj: Option<Resource>, resp: Option<Response>, err: Option<Error>)
      modifies client`sent
      ensures client.sent == old(client.LogAfter(PlanGet(id)))
      ensures match old(client.Exchange(PlanGet(id)))
        case Refused(e) => obj == None && resp == None && err == Some(e)
        case Answered(reply) =>
          && resp == reply.response && err == reply.error
          && obj == if err.None? then Some(reply.resource) else None
    {
      if id < 1 {
        return None, None, Some(ArgError(IdArgument, LessThanOne));
      }
      var path := Fmt.ItemPath(BasePath, id);
      var made := client.NewRequest(GET, path, None);
      if made.Failure? {
        return None, None, Some(made.error);
      }
      var root := new ResourceRoot();
      resp, err := client.Do(made.value, IntoResource(root));
      if err.Some? {
        return None, resp, err;
      }
      return Some(root.value), resp, err;
    }

    /** `Create(ctx, r)`: the envelope's untagged `Project` field, decoded
      from the answer, and not a resource decoded from the whole body. */
    method Create(r: Option<CreateRequest>) returns (obj: Option<Resource>, resp: Option<Response>, err: Option<Error>)
      modifies client`sent
      ensures client.sent == old(client.LogAfter(PlanCreate(r)))
      ensures match old(client.Exchange(PlanCreate(r)))
        case Refused(e) => obj == None && resp == None && err == Some(e)
        case Answered(reply) =>
          && resp == reply.response && err == reply.error
          && obj == if err.None? then reply.envelope.embedded else None
    {
      if r.None? {
        return None, None, Some(ArgError(CreateRequestArgument, IsNil));
      }
      var path := BasePath;
      var made := client.NewRequest(POST, path, Some(Body(r.value)));
      if made.Failure? {
        return None, None, Some(made.error);
      }
      var root := new EnvelopeRoot();
      resp, err := client.Do(made.value, IntoEnvelope(root));
      if err.Some? {
        return None, resp, err;
      }
      return root.embedded, resp, err;
    }

    /** `Delete(ctx, id)`: decodes nothing from the answer. */
    method Delete(id: int) returns (resp: Option<Response>, err: Option<Error>)
      modifies client`sent
      ensures client.sent == old(client.LogAfter(PlanDelete(id)))
      ensures match old(client.Exchange(PlanDelete(id)))
        case Refused(e) => resp == None && err == Some(e)
        case Answered(reply) => resp == reply.response && err == reply.error
    {
      if id < 1 {
        return None, Some(ArgError(IdArgument, LessThanOne));
      }
      var path := Fmt.ItemPath(BasePath, id);
      var made := client.NewRequest(DELETE, path, None);
      if made.Failure? {
        return None, Some(made.error);
      }
      resp, err := client.Do(made.value, Nowhere);
    }
  }
}
