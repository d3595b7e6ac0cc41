/** awx/organizations.go: organization calls written straight against
    `http.NewRequest` and `doRequest`, without the service layer: the id is
    not checked, updates use PUT, URLs are built from the client's base URL,
    encoding and decoding errors are ignored, and a failing
    `http.NewRequest` in UpdateOrganization ends the process. */
module Organizations {
  import opened Wrappers
  import Json
  import Fmt
  import Godo

  type Byte = Godo.Byte

  /** The fields of `Organization`, in declaration order. */
  datatype Field =
    | Id
    | Type
    | Url
    | Related
    | SummaryFields
    | Created
    | Modified
    | Name
    | Description
    | CustomVirtualenv

  /** Every field. */
  const Fields: set<Field> := set f: Field | true
  const Order: seq<Field> := [Id, Type, Url, Related, SummaryFields, Created, Modified, Name, Description, CustomVirtualenv]

  /** The declaration order lists every field. */
  lemma InOrder(f: Field)
    ensures f in Order
  {
    match f
    case Id => assert Order[0] == f;
    case Type => assert Order[1] == f;
    case Url => assert Order[2] == f;
    case Related => assert Order[3] == f;
    case SummaryFields => assert Order[4] == f;
    case Created => assert Order[5] == f;
    case Modified => assert Order[6] == f;
    case Name => assert Order[7] == f;
    case Description => assert Order[8] == f;
    case CustomVirtualenv => assert Order[9] == f;
  }

  /** The key each field's `json` tag names. */
  function Key(f: Field): string
  {
    match f
    case Id => "id"
    case Type => "type"
    case Url => "url"
    case Related => "related"
    case SummaryFields => "summary_fields"
    case Created => "created"
    case Modified => "modified"
    case Name => "name"
    case Description => "description"
    case CustomVirtualenv => "custom_virtualenv"
  }

  /** What the zero `OrganizationRelated` encodes to: every one of its
      fields is an `omitempty` string, so nothing. */
  const RelatedZero: seq<Json.Member> := []

  /** What the zero `OrganizationSummaryFields` encodes to: its five
      struct-valued members, none of them `omitempty`, each holding only
      `omitempty` fields except `object_roles`, which holds ten such
      structs. */
  const SummaryFieldsZero: seq<Json.Member> := [
    Json.Member("created_by", Json.Object([])),
    Json.Member("modified_by", Json.Object([])),
    Json.Member("object_roles", Json.Object([
      Json.Member("admin_role", Json.Object([])),
      Json.Member("member_role", Json.Object([])),
      Json.Member("execute_role", Json.Object([])),
      Json.Member("notification_admin_role", Json.Object([])),
      Json.Member("workflow_admin_role", Json.Object([])),
      Json.Member("credential_admin_role", Json.Object([])),
      Json.Member("read_role", Json.Object([])),
      Json.Member("project_admin_tole", Json.Object([])),
      Json.Member("auditor_role", Json.Object([])),
      Json.Member("inventory_admin_role", Json.Object([]))])),
    Json.Member("user_capabilities", Json.Object([])),
    Json.Member("related_field_counts", Json.Object([]))]

  /** The Go type of each field. */
  function KindOf(f: Field): Json.Kind
  {
    match f
    case Type | Url | Created | Modified | Name | Description | CustomVirtualenv => Json.StrKind
    case Id => Json.IntKind
    case Related => Json.StructKind(RelatedZero)
    case SummaryFields => Json.StructKind(SummaryFieldsZero)
  }

  /** Whether a field's tag lacks `omitempty`: only `name`. */
  predicate Keep(f: Field)
  {
    f == Name
  }

  /** An `Organization` value: each field holds a value of its type. */
  type Organization = r: map<Field, Json.Value> | Json.IsStruct(Fields, KindOf, r)
    witness Json.ZeroStruct(Fields, KindOf)

  /** `CreateRequestOrganization()`: `new(Organization)`, every field zero. */
  function CreateRequestOrganization(): (r: Organization)
    ensures forall f :: f in r ==> r[f] == Json.Zero(KindOf(f))
  {
    Json.ZeroStruct(Fields, KindOf)
  }

  /** Whether encoding writes field `f` of `r`. */
  predicate Written(r: Organization, f: Field)
  {
    f in r && (Keep(f) || !Json.IsEmptyValue(r[f]))
  }

  /** The members the encoding carries, by field: `name` always, `related`
      and `summary_fields` always (a struct is never empty), any other field
      exactly when it is not empty, each with the field's value. */
  function Payload(r: Organization): (obj: map<Field, Json.Value>)
    ensures Name in obj && Related in obj && SummaryFields in obj
    ensures forall f :: f in obj <==> Written(r, f)
    ensures forall f :: f in obj ==> f in r && obj[f] == r[f]
  {
    Json.Marshal(r, Keep)
  }

  /** What encoding writes for the fields `order` of `r`, each under its key. */
  function Members(order: seq<Field>, r: Organization): seq<Json.Member>
  {
    if order == [] then []
    else
      var f := order[0];
      (if f in r && Written(r, f) then [Json.Member(Key(f), r[f])] else []) + Members(order[1..], r)
  }

  /** Encoding writes exactly the members `Payload` names, in the order given. */
  lemma {:induction false} MembersArePayload(order: seq<Field>, r: Organization)
    ensures Members(order, r) == Json.Wire(order, Key, Payload(r))
    decreases |order|
  {
    if order != [] {
      MembersArePayload(order[1..], r);
    }
  }


  /** The zero organization is sent with an empty name and the encodings of
      its two zero structs, and nothing else. */
  lemma ZeroPayload()
    ensures Payload(CreateRequestOrganization()) == map[
      Related := Json.Object(RelatedZero),
      SummaryFields := Json.Object(SummaryFieldsZero),
      Name := Json.Str("")]
  {
  }

  /** No two fields share a key. */
  lemma KeyInjective(f: Field, g: Field)
    ensures Key(f) == Key(g) <==> f == g
  {
  }

  /** Looking a field's key up in the encoding finds the field's value when
      it was written, and nothing otherwise. */
  lemma {:induction false} LookupMembers(order: seq<Field>, r: Organization, f: Field)
    ensures Json.Lookup(Members(order, r), Key(f)) ==
      if f in order && Written(r, f) then Some(r[f]) else None
    decreases |order|
  {
    if order != [] {
      var g := order[0];
      LookupMembers(order[1..], r, f);
      KeyInjective(f, g);
      if Written(r, g) {
        Json.LookupCons(Json.Member(Key(g), r[g]), Members(order[1..], r), Key(f));
      } else {
        assert Members(order, r) == Members(order[1..], r);
      }
    }
  }

  /** Decoding the members `w` into `new(Organization)`. */
  function Decoded(w: seq<Json.Member>): (r: Organization)
    ensures forall f :: f in r ==> r[f] == Json.FieldFrom(Json.Lookup(w, Key(f)), KindOf(f))
  {
    map f | f in Fields :: Json.FieldFrom(Json.Lookup(w, Key(f)), KindOf(f))
  }

  /** Decoding what encoding wrote gives the organization back. */
  lemma DecodeMembers(r: Organization)
    ensures Decoded(Members(Order, r)) == r
  {
    var back := Decoded(Members(Order, r));
    forall f | f in Fields
      ensures back[f] == r[f]
    {
      InOrder(f);
      LookupMembers(Order, r, f);
      Json.EmptyIsZero(r[f], KindOf(f));
    }
  }

  /** `json.NewEncoder(b).Encode(i)`: a nil organization encodes as `null`,
      any other as an object from which decoding recovers it. */
  function Body(i: Option<Organization>): (v: Json.Value)
    ensures i.None? ==> v == Json.Null
    ensures i.Some? ==> v.Object? && Decoded(v.members) == i.value
  {
    if i.None? then Json.Null
    else
      DecodeMembers(i.value);
      Json.Object(Members(Order, i.value))
  }

  /** `json.NewDecoder(...).Decode(data)` on the answer, its error ignored:
      `parse` reads the JSON text. An answer that is the encoding of an
      organization gives that organization back; when parsing fails, or the
      text is not an object, `data` stays as allocated. */
  function FromBody(parse: seq<Byte> -> Option<Json.Value>, body: seq<Byte>): (r: Organization)
    ensures forall o: Organization :: parse(body) == Some(Body(Some(o))) ==> r == o
    ensures (parse(body).None? || !parse(body).value.Object?) ==> r == CreateRequestOrganization()
  {
    match parse(body)
    case Some(Object(w)) => Decoded(w)
    case _ => CreateRequestOrganization()
  }

  /** `fmt.Sprint(s.BaseURL + "/organizations/")`: the base URL followed by
      the collection's route, which names no item. */
  function CollectionUrl(base: string): (url: string)
    ensures |url| == |base| + 15 && url[..|base|] == base
    ensures Fmt.ItemIdOf(url, url) == None
  {
    base + "/organizations/"
  }

  /** The URL of organization `id`: the collection URL, the id, a slash.
      It names exactly that id, negative ones included. */
  function ItemUrl(base: string, id: int): (url: string)
    ensures Fmt.ItemIdOf(CollectionUrl(base), url) == Some(id)
  {
    Fmt.ItemPath(CollectionUrl(base), id)
  }

  /** The URL as the source builds it: `fmt.Sprintf(s.BaseURL +
      "/organizations/%d/", id)`, the base URL being part of the format.
      For a base URL without `%` it is the intended one. */
  function ItemUrlAsWritten(base: string, id: int): (r: Option<string>)
    ensures Fmt.Plain(base) ==> r == Some(ItemUrl(base, id))
  {
    var prefix := base + "/organizations/";
    assert base + "/organizations/%d/" == prefix + "%d" + "/";
    if Fmt.Plain(base) then
      assert Fmt.Plain(prefix);
      Fmt.SprintfOneInt(prefix, "/", id);
      Fmt.Sprintf(base + "/organizations/%d/", [id])
    else
      Fmt.Sprintf(base + "/organizations/%d/", [id])
  }

  /** A base URL `p%dq` takes the id in place of its `%d`, and the item's
      own `%d` then finds no argument: `http://awx/%d` gives
      `http://awx/5/organizations/%!d(MISSING)/` for id 5. */
  lemma AsWrittenWithPercent(p: string, q: string, id: int)
    requires forall k :: 0 <= k < |p| ==> p[k] != '%'
    requires forall k :: 0 <= k < |q| ==> q[k] != '%'
    ensures ItemUrlAsWritten(p + "%d" + q, id) ==
      Some(p + Fmt.FormatInt(id) + q + "/organizations/%!d(MISSING)/")
    ensures ItemUrlAsWritten(p + "%d" + q, id) != Some(ItemUrl(p + "%d" + q, id))
  {
    var f := Fmt.FormatInt(id);
    var base := p + "%d" + q;
    var collection := q + "/organizations/";
    assert forall k :: 0 <= k < |collection| ==> collection[k] != '%';
    var rest := collection + "%d" + "/";
    calc {
      base + "/organizations/%d/";
      { assert "/organizations/%d/" == "/organizations/" + "%d" + "/"; }
      p + "%d" + q + ("/organizations/" + "%d" + "/");
      { Fmt.Associative(p + "%d", q, "/organizations/" + "%d" + "/");
        Fmt.Associative(q, "/organizations/" + "%d", "/");
        Fmt.Associative(q, "/organizations/", "%d"); }
      p + "%d" + rest;
      { Fmt.Associative(p, "%d", rest); }
      p + ("%d" + rest);
    }
    Fmt.SprintfPlain(p, "%d" + rest, [id]);
    Fmt.SprintfInt(rest, id, []);
    assert [id] + [] == [id];
    Fmt.SprintfMissing(collection, "/");
    var missing := collection + "%!d(MISSING)" + "/";
    calc {
      p + (f + missing);
      { Fmt.Associative(p, f, missing); }
      p + f + missing;
      { Fmt.Associative(q + "/organizations/", "%!d(MISSING)", "/");
        Fmt.Associative(q, "/organizations/", "%!d(MISSING)" + "/");
        Fmt.Associative(p + f, q, "/organizations/" + ("%!d(MISSING)" + "/")); }
      p + f + q + ("/organizations/" + ("%!d(MISSING)" + "/"));
      { assert "/organizations/" + ("%!d(MISSING)" + "/") == "/organizations/%!d(MISSING)/"; }
      p + f + q + "/organizations/%!d(MISSING)/";
    }
    assert |ItemUrl(base, id)| == |p| + |q| + |f| + 18;
  }

  /** `CreateOrganization(i)`: POSTs the encoding of `i` to the collection
      URL and decodes the answer. The second result is the body `doRequest`
      returned. */
  method CreateOrganization(c: Godo.Client, net: Godo.Network, parse: seq<Byte> -> Option<Json.Value>,
                            i: Option<Organization>)
    returns (data: Option<Organization>, body: Option<seq<Byte>>, err: Option<Godo.Error>)
    modifies net`sent
    ensures net.sent == old(net.LogAfterCall(c, "POST", CollectionUrl(c.baseURL), Some(Body(i))))
    ensures match old(net.Call(c, "POST", CollectionUrl(c.baseURL), Some(Body(i))))
      case Failure(e) => data == None && body == None && err == Some(e)
      case Success(b) => data == Some(FromBody(parse, b)) && body == Some(b) && err == None
  {
    var url := CollectionUrl(c.baseURL);
    var req, e := net.NewRequest("POST", url, Some(Body(i)));
    if e.Some? {
      return None, None, e;
    }
    var b, e2 := c.DoRequest(req, net);
    if e2.Some? {
      return None, None, e2;
    }
    return Some(FromBody(parse, b.value)), b, None;
  }

  /** `ReadOrganization(id)`: GETs the item URL and decodes the answer. */
  method ReadOrganization(c: Godo.Client, net: Godo.Network, parse: seq<Byte> -> Option<Json.Value>, id: int)
    returns (data: Option<Organization>, body: Option<seq<Byte>>, err: Option<Godo.Error>)
    modifies net`sent
    ensures net.sent == old(net.LogAfterCall(c, "GET", ItemUrl(c.baseURL, id), None))
    ensures match old(net.Call(c, "GET", ItemUrl(c.baseURL, id), None))
      case Failure(e) => data == None && body == None && err == Some(e)
      case Success(b) => data == Some(FromBody(parse, b)) && body == Some(b) && err == None
  {
    var url := ItemUrl(c.baseURL, id);
    var req, e := net.NewRequest("GET", url, None);
    if e.Some? {
      return None, None, e;
    }
    var b, e2 := c.DoRequest(req, net);
    if e2.Some? {
      return None, None, e2;
    }
    return Some(FromBody(parse, b.value)), b, None;
  }

  /** `UpdateOrganization(id, i)`: PUTs the encoding of `i` to the item URL
      and decodes the answer; when the request cannot be built, `log.Fatal`
      ends the process (`exited`) and nothing is sent. */
  method UpdateOrganization(c: Godo.Client, net: Godo.Network, parse: seq<Byte> -> Option<Json.Value>,
                            id: int, i: Option<Organization>)
    returns (data: Option<Organization>, body: Option<seq<Byte>>, err: Option<Godo.Error>, exited: bool)
    modifies net`sent
    ensures exited <==> net.reject("PUT", ItemUrl(c.baseURL, id)).Some?
    ensures net.sent == old(net.LogAfterCall(c, "PUT", ItemUrl(c.baseURL, id), Some(Body(i))))
    ensures !exited ==> match old(net.Call(c, "PUT", ItemUrl(c.baseURL, id), Some(Body(i))))
      case Failure(e) => data == None && body == None && err == Some(e)
      case Success(b) => data == Some(FromBody(parse, b)) && body == Some(b) && err == None
  {
    var url := ItemUrl(c.baseURL, id);
    var req, e := net.NewRequest("PUT", url, Some(Body(i)));
    if e.Some? {
      return None, None, None, true;
    }
    var b, e2 := c.DoRequest(req, net);
    if e2.Some? {
      return None, None, e2, false;
    }
    return Some(FromBody(parse, b.value)), b, None, false;
  }

  /** `DeleteOrganization(id)`: DELETEs the item URL; the answer is not decoded. */
  method DeleteOrganization(c: Godo.Client, net: Godo.Network, id: int)
    returns (body: Option<seq<Byte>>, err: Option<Godo.Error>)
    modifies net`sent
    ensures net.sent == old(net.LogAfterCall(c, "DELETE", ItemUrl(c.baseURL, id), None))
    ensures match old(net.Call(c, "DELETE", ItemUrl(c.baseURL, id), None))
      case Failure(e) => body == None && err == Some(e)
      case Success(b) => body == Some(b) && err == None
  {
    var url := ItemUrl(c.baseURL, id);
    var req, e := net.NewRequest("DELETE", url, None);
    if e.Some? {
      return None, e;
    }
    body, err := c.DoRequest(req, net);
  }
}
