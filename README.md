# awx-go-client, modelled in Dafny

A model of the request-building core of awx-go-client, a Go client for the
REST API of AWX. It covers the five resource services (job templates,
inventory sources, projects, organizations, inventories), the older
hand-written organization calls in `awx/organizations.go`, and `doRequest`
in `awx/godo.go`. Each service checks its arguments and builds a request:
an HTTP method, a path under the service's base path, and an encoded
payload. It then hands the request to the client and picks one part of
the decoded answer to return.

## How the model is laid out

- `Wrappers` holds `Option` and `Result`.
- `Fmt` covers Go's `%d` and the item path `fmt.Sprintf("%s%d/", base, id)`.
  Each comes with a parser, and the round trip is proved: an item path
  names exactly one id. It also models `fmt.Sprintf` for formats whose
  only verbs are `%d` and `%%`.
- `Json` models what encoding/json does to the `...CreateRequest` structs.
  A struct value is a map from the struct's fields to typed values.
  Encoding with `omitempty` drops empty fields, where a struct-valued
  field is never empty. Decoding starts from the zero struct and sets
  each field from the first member whose key is exactly the field's tag.
  The main lemma: decoding the encoding gives the struct back.
- `Rest` is the client surface the services call (`NewRequest`, `Do`,
  `Response`, `NewArgError`). Its code is not part of this model, so it is
  abstract. `Client` keeps a log `sent` of every request handed to `Do`.
  The log belongs to the model, not to the Go client. It is a plain field
  rather than a ghost one only because the server oracle reads it.
  `Client` also takes two oracles as parameters:
  - `refuse` says whether `NewRequest` fails;
  - `server` answers each request, given the requests sent before it.
  `Do` fills the root allocated by the caller, in place.
- `JobTemplate`, `InventorySource`, `Project`, `Organization` and
  `Inventory` model one service file each. Each has the file's
  `CreateRequest` fields with their tag keys, Go types and omitempty
  flags. Pure `Plan...` functions state each operation's argument checks,
  HTTP method, path and payload. The methods of a `ServiceOp` class follow
  the Go code step by step. Each method's contract ties the log and the
  results to the plan and to the oracles.
- `BasicAuth` models the `Authorization` value `SetBasicAuth` writes:
  "Basic " followed by the RFC 4648 base64 encoding of the RFC 7617
  user-pass. The decoder beside it is proved to recover the user-id and
  password.
- `Godo` holds the `Client` of `awx/godo.go`, whose fields are Username,
  Password and BaseURL. Two more classes sit beside it:
  - `HttpRequest` is the `*http.Request`, whose header `SetBasicAuth`
    changes in place;
  - `Network` is the world: it logs every request sent (a log of the
    model, like the one in `Rest`), and two oracles
    stand for `http.NewRequest` (`reject`) and for `http.Client.Do` plus
    `ioutil.ReadAll` (`transport`).
  `Classify` is the status rule of `doRequest`. `Client.DoRequest` signs,
  sends and classifies, and leaves the client's own fields unchanged.
- `Organizations` models `awx/organizations.go`: the `Organization`
  struct, its encoding and decoding, the URLs built from `BaseURL`, and
  the four calls. JSON text parsing is an oracle `parse`, and decode
  errors are ignored, as the source ignores them.

## Where the code and its description differ

The model follows the code in each case below.

- `doRequest` accepts only status 200. A 201 Created or 204 No Content
  answer is an error whose message is the body
  (`Godo.CreatedAndNoContentAreErrors`).
- A `CreateRequest` cannot send an explicit `0`, `false` or `""` for an
  `omitempty` field: such a field is simply not sent. Only `name`, and for
  inventories `organization`, always go out.
- Project and Inventory `Create` decode the answer into the list root.
  They return its untagged embedded field, not a resource read from the
  whole body.
- The Delete calls of the inventory source and organization services
  report their id argument as `inventoryID` and `OrganizationID`. Get and
  Update report `inventorySourceID` and `organizationID`.
- `awx/organizations.go` does not compile together with the rest of the
  package, for two reasons:
  - it declares a second `Organization` type beside the one in
    `awx/organization.go`. The model keeps the two apart, one per module.
  - its calls read `resp.Body` from the `[]byte` that `doRequest` returns.
    The model takes that value to be the body bytes, decodes them with
    the `parse` oracle, and returns them in second position.
- `organizations.go` checks no id, updates with PUT, not PATCH, and ends
  the process with `log.Fatal` when the update request cannot be built.

## Model

| member | source | states |
|---|---|---|
| JobTemplate.Payload | awx/job_template.go:158-192 | the encoded payload carries `name` always and any other field exactly when it is not empty, with the field's value |
| JobTemplate.PayloadRoundTrip | awx/job_template.go:158-192 | decoding the payload into a fresh request gives the request back: omitting empty fields loses nothing |
| JobTemplate.Named | awx/job_template.go:158-192 | a request with only the name set holds it and zero, empty values elsewhere |
| JobTemplate.NamedPayload | awx/job_template.go:158-192 | such a request is sent as `name` alone |
| JobTemplate.MembersArePayload | awx/job_template.go:158-192 | the members written, in declaration order, are exactly the payload's, under their tag keys |
| JobTemplate.BodyIsPayload | awx/job_template.go:158-192 | the body handed to NewRequest is the payload in declaration order |
| JobTemplate.PlanGet | awx/job_template.go:221-228 | fails exactly for an id below 1, with `NewArgError("jobTemplateID", "cannot be less than 1")`; otherwise a GET without body of a path under `BasePath` that parses back to the id |
| JobTemplate.PlanCreate | awx/job_template.go:243-250 | fails exactly for a nil request, with `NewArgError("createRequest", "cannot be nil")`; otherwise a POST of the encoded request to `BasePath` |
| JobTemplate.PlanUpdate | awx/job_template.go:263-273 | fails exactly for an id below 1 or a nil request, the id error first; otherwise a PATCH of the encoded request to the path naming the id |
| JobTemplate.PlanDelete | awx/job_template.go:284-291 | fails exactly for an id below 1, with `NewArgError("jobTemplateID", "cannot be less than 1")`; otherwise a DELETE without body of the path naming the id |
| JobTemplate.ServiceOp.List | awx/job_template.go:204-218 | exactly the GET of `BasePath` is logged unless NewRequest refuses; returns the envelope's `results` when Do reports no error, nothing otherwise |
| JobTemplate.ServiceOp.Get | awx/job_template.go:221-240 | logs the planned request exactly when the argument check and NewRequest pass; returns the decoded resource when Do reports no error |
| JobTemplate.ServiceOp.Create | awx/job_template.go:243-260 | logs the planned POST exactly when it passes; returns the decoded resource when Do reports no error |
| JobTemplate.ServiceOp.Update | awx/job_template.go:263-281 | logs the planned PATCH exactly when it passes; decodes nothing, returns Do's response and error |
| JobTemplate.ServiceOp.Delete | awx/job_template.go:284-299 | logs the planned DELETE exactly when it passes; decodes nothing, returns Do's response and error |
| InventorySource.Payload | awx/inventory_source.go:115-135 | the encoded payload carries `name` always and any other field exactly when it is not empty, with the field's value |
| InventorySource.PayloadRoundTrip | awx/inventory_source.go:115-135 | decoding the payload into a fresh request gives the request back: omitting empty fields loses nothing |
| InventorySource.Named | awx/inventory_source.go:115-135 | a request with only the name set holds it and zero, empty values elsewhere |
| InventorySource.NamedPayload | awx/inventory_source.go:115-135 | such a request is sent as `name` alone |
| InventorySource.MembersArePayload | awx/inventory_source.go:115-135 | the members written, in declaration order, are exactly the payload's, under their tag keys |
| InventorySource.BodyIsPayload | awx/inventory_source.go:115-135 | the body handed to NewRequest is the payload in declaration order |
| InventorySource.PlanGet | awx/inventory_source.go:164-171 | fails exactly for an id below 1, with `NewArgError("inventorySourceID", "cannot be less than 1")`; otherwise a GET without body of a path under `BasePath` that parses back to the id |
| InventorySource.PlanCreate | awx/inventory_source.go:186-193 | fails exactly for a nil request, with `NewArgError("createRequest", "cannot be nil")`; otherwise a POST of the encoded request to `BasePath` |
| InventorySource.PlanUpdate | awx/inventory_source.go:208-218 | fails exactly for an id below 1 or a nil request, the id error first; otherwise a PATCH of the encoded request to the path naming the id |
| InventorySource.PlanDelete | awx/inventory_source.go:229-236 | fails exactly for an id below 1, with `NewArgError("inventoryID", "cannot be less than 1")`; otherwise a DELETE without body of the path naming the id |
| InventorySource.ServiceOp.List | awx/inventory_source.go:147-161 | exactly the GET of `BasePath` is logged unless NewRequest refuses; returns the envelope's `results` when Do reports no error, nothing otherwise |
| InventorySource.ServiceOp.Get | awx/inventory_source.go:164-183 | logs the planned request exactly when the argument check and NewRequest pass; returns the decoded resource when Do reports no error |
| InventorySource.ServiceOp.Create | awx/inventory_source.go:186-205 | logs the planned POST exactly when it passes; returns the decoded resource when Do reports no error |
| InventorySource.ServiceOp.Update | awx/inventory_source.go:208-226 | logs the planned PATCH exactly when it passes; decodes nothing, returns Do's response and error |
| InventorySource.ServiceOp.Delete | awx/inventory_source.go:229-244 | logs the planned DELETE exactly when it passes; decodes nothing, returns Do's response and error |
| Project.Payload | awx/project.go:138-153 | the encoded payload carries `name` always and any other field exactly when it is not empty, with the field's value |
| Project.PayloadRoundTrip | awx/project.go:138-153 | decoding the payload into a fresh request gives the request back: omitting empty fields loses nothing |
| Project.Named | awx/project.go:138-153 | a request with only the name set holds it and zero, empty values elsewhere |
| Project.NamedPayload | awx/project.go:138-153 | such a request is sent as `name` alone |
| Project.MembersArePayload | awx/project.go:138-153 | the members written, in declaration order, are exactly the payload's, under their tag keys |
| Project.BodyIsPayload | awx/project.go:138-153 | the body handed to NewRequest is the payload in declaration order |
| Project.PlanGet | awx/project.go:182-189 | fails exactly for an id below 1, with `NewArgError("projectID", "cannot be less than 1")`; otherwise a GET without body of a path under `BasePath` that parses back to the id |
| Project.PlanCreate | awx/project.go:204-211 | fails exactly for a nil request, with `NewArgError("createRequest", "cannot be nil")`; otherwise a POST of the encoded request to `BasePath` |
| Project.PlanDelete | awx/project.go:224-231 | fails exactly for an id below 1, with `NewArgError("projectID", "cannot be less than 1")`; otherwise a DELETE without body of the path naming the id |
| Project.ServiceOp.List | awx/project.go:165-179 | exactly the GET of `BasePath` is logged unless NewRequest refuses; returns the envelope's `results` when Do reports no error, nothing otherwise |
| Project.ServiceOp.Get | awx/project.go:182-201 | logs the planned request exactly when the argument check and NewRequest pass; returns the decoded resource when Do reports no error |
| Project.ServiceOp.Create | awx/project.go:204-221 | logs the planned POST exactly when it passes; returns the root's untagged `Project` field, not a resource decoded from the whole body |
| Project.ServiceOp.Delete | awx/project.go:224-239 | logs the planned DELETE exactly when it passes; decodes nothing, returns Do's response and error |
| Organization.Payload | awx/organization.go:141-145 | the encoded payload carries `name` always and any other field exactly when it is not empty, with the field's value |
| Organization.PayloadRoundTrip | awx/organization.go:141-145 | decoding the payload into a fresh request gives the request back: omitting empty fields loses nothing |
| Organization.Named | awx/organization.go:141-145 | a request with only the name set holds it and zero, empty values elsewhere |
| Organization.NamedPayload | awx/organization.go:141-145 | such a request is sent as `name` alone |
| Organization.MembersArePayload | awx/organization.go:141-145 | the members written, in declaration order, are exactly the payload's, under their tag keys |
| Organization.BodyIsPayload | awx/organization.go:141-145 | the body handed to NewRequest is the payload in declaration order |
| Organization.PlanGet | awx/organization.go:174-181 | fails exactly for an id below 1, with `NewArgError("organizationID", "cannot be less than 1")`; otherwise a GET without body of a path under `BasePath` that parses back to the id |
| Organization.PlanCreate | awx/organization.go:196-203 | fails exactly for a nil request, with `NewArgError("createRequest", "cannot be nil")`; otherwise a POST of the encoded request to `BasePath` |
| Organization.PlanUpdate | awx/organization.go:218-228 | fails exactly for an id below 1 or a nil request, the id error first; otherwise a PATCH of the encoded request to the path naming the id |
| Organization.PlanDelete | awx/organization.go:239-246 | fails exactly for an id below 1, with `NewArgError("OrganizationID", "cannot be less than 1")`; otherwise a DELETE without body of the path naming the id |
| Organization.ServiceOp.List | awx/organization.go:157-171 | exactly the GET of `BasePath` is logged unless NewRequest refuses; returns the envelope's `results` when Do reports no error, nothing otherwise |
| Organization.ServiceOp.Get | awx/organization.go:174-193 | logs the planned request exactly when the argument check and NewRequest pass; returns the decoded resource when Do reports no error |
| Organization.ServiceOp.Create | awx/organization.go:196-215 | logs the planned POST exactly when it passes; returns the decoded resource when Do reports no error |
| Organization.ServiceOp.Update | awx/organization.go:218-236 | logs the planned PATCH exactly when it passes; decodes nothing, returns Do's response and error |
| Organization.ServiceOp.Delete | awx/organization.go:239-254 | logs the planned DELETE exactly when it passes; decodes nothing, returns Do's response and error |
| Inventory.Payload | awx/inventory.go:133-141 | the encoded payload carries `name` and `organization` (even when 0) always and any other field exactly when it is not empty, with the field's value |
| Inventory.PayloadRoundTrip | awx/inventory.go:133-141 | decoding the payload into a fresh request gives the request back: omitting empty fields loses nothing |
| Inventory.Named | awx/inventory.go:133-141 | a request with only name and organization set holds those and zero, empty values elsewhere |
| Inventory.NamedPayload | awx/inventory.go:133-141 | such a request is sent as exactly `name` and `organization`, an organization of 0 included |
| Inventory.MembersArePayload | awx/inventory.go:133-141 | the members written, in declaration order, are exactly the payload's, under their tag keys |
| Inventory.BodyIsPayload | awx/inventory.go:133-141 | the body handed to NewRequest is the payload in declaration order |
| Inventory.PlanGet | awx/inventory.go:170-177 | fails exactly for an id below 1, with `NewArgError("inventoryID", "cannot be less than 1")`; otherwise a GET without body of a path under `BasePath` that parses back to the id |
| Inventory.PlanCreate | awx/inventory.go:192-199 | fails exactly for a nil request, with `NewArgError("createRequest", "cannot be nil")`; otherwise a POST of the encoded request to `BasePath` |
| Inventory.PlanDelete | awx/inventory.go:214-221 | fails exactly for an id below 1, with `NewArgError("inventoryID", "cannot be less than 1")`; otherwise a DELETE without body of the path naming the id |
| Inventory.ServiceOp.List | awx/inventory.go:153-167 | exactly the GET of `BasePath` is logged unless NewRequest refuses; returns the envelope's `results` when Do reports no error, nothing otherwise |
| Inventory.ServiceOp.Get | awx/inventory.go:170-189 | logs the planned request exactly when the argument check and NewRequest pass; returns the decoded resource when Do reports no error |
| Inventory.ServiceOp.Create | awx/inventory.go:192-211 | logs the planned POST exactly when it passes; returns the root's untagged `Inventory` field, not a resource decoded from the whole body |
| Inventory.ServiceOp.Delete | awx/inventory.go:214-229 | logs the planned DELETE exactly when it passes; decodes nothing, returns Do's response and error |
| Fmt.FormatInt | awx/job_template.go:226 | `%d` of an int, which the parser reads back as that int |
| Fmt.ItemPath | awx/job_template.go:226 | `fmt.Sprintf("%s%d/", base, id)`: a route under `base` that names exactly `id` |
| Fmt.Sprintf | awx/organizations.go:155 | Go's formatting for `%d` and `%%`; a format without `%` is copied, with any unused arguments reported after it |
| Fmt.FormatIntRoundTrip | awx/job_template.go:226 | `%d` of any int, negative ones included, is read back by the parser |
| Fmt.FormatIntInjective | awx/job_template.go:226 | distinct ids print differently |
| Fmt.ItemPathRoundTrip | awx/job_template.go:226 | the item path `base + %d + "/"` parses back to exactly its id |
| Fmt.ItemPathInjective | awx/job_template.go:226 | two item paths under one base are equal exactly when their ids are |
| Fmt.ItemPathIsNotCollection | awx/job_template.go:226-228 | an item path is never the collection path, which names no id |
| Fmt.SprintfOneInt | awx/organizations.go:155 | one `%d` between text without `%` is replaced by the decimal argument |
| Fmt.SprintfMissing | awx/organizations.go:155 | a `%d` with no argument left writes `%!d(MISSING)` |
| Fmt.SprintfText | awx/organizations.go:155 | text without `%` and no arguments formats as itself |
| Json.EmptyIsZero | awx/job_template.go:158-192 | a field counts as empty for `omitempty` exactly when it is a scalar holding its zero value |
| Json.ZeroStruct | awx/organizations.go:125-128 | `new(T)`: a value of the struct type with every field zero |
| Json.Marshal | awx/job_template.go:158-192 | a field is written exactly when it lacks `omitempty` or is not empty, with its own value |
| Json.Unmarshal | awx/organizations.go:147-148 | decoding yields a struct value with each field taken from its member or left zero |
| Json.UnmarshalMarshal | awx/job_template.go:158-192 | decoding the encoding of a struct gives the struct back |
| Json.MarshalOnly | awx/job_template.go:158-192 | when every `omitempty` field is empty, only the kept fields are written |
| Rest.Client.NewRequest | awx/job_template.go:250 | builds exactly the request asked for, or fails with the oracle's error |
| Rest.Client.Do | awx/job_template.go:254-255 | appends the request to the log and fills the caller's root with the answer, only when there is no error |
| Rest.EnvelopeRoot.constructor | awx/job_template.go:195-201 | a fresh root: counts zero, no results, nil embedded field |
| Rest.ResourceRoot.constructor | awx/job_template.go:233 | a fresh resource, every field zero |
| Godo.Classify | awx/godo.go:18-30 | succeeds exactly when the body was read and the status is 200, with the body unchanged; otherwise a transport error, a read error, or a status error carrying the body |
| Godo.CreatedAndNoContentAreErrors | awx/godo.go:27-29 | 201 and 204 answers are errors whose message is the body |
| Godo.HttpRequest.SetBasicAuth | awx/godo.go:16 | sets the `Authorization` header to the basic credentials and changes no other header |
| Godo.Network.NewRequest | awx/organizations.go:136-140 | a fresh request without header for exactly the method, URL and body given, or the oracle's error and no request |
| Godo.Network.RoundTrip | awx/godo.go:17-26 | sends the request, logging it, and returns the transport's answer |
| Godo.Client.constructor | awx/godo.go:9-13 | a client holding the given username, password and base URL |
| Godo.Client.DoRequest | awx/godo.go:15-31 | signs the request before sending, so what goes out carries the credentials; logs it once; returns exactly what `Classify` gives; leaves the client's fields unchanged |
| BasicAuth.SextetRoundTrip | awx/godo.go:16 | every base64 value has its own alphabet character, never the padding |
| BasicAuth.EncodeLength | awx/godo.go:16 | the encoding of n bytes has 4 * ceil(n / 3) characters |
| BasicAuth.DecodeEncode | awx/godo.go:16 | base64 decoding of the encoding gives the bytes back |
| BasicAuth.SplitJoin | awx/godo.go:16 | a user-pass whose user-id has no colon splits at its first colon into that user-id and the password |
| BasicAuth.CredentialsRoundTrip | awx/godo.go:16 | a server reading the `Authorization` value recovers the username and password |
| Organizations.InOrder | awx/organizations.go:11-22 | every field appears in the declaration order |
| Organizations.KeyInjective | awx/organizations.go:11-22 | no two fields share a JSON key |
| Organizations.CreateRequestOrganization | awx/organizations.go:125-128 | a new organization with every field zero |
| Organizations.Payload | awx/organizations.go:11-22 | `name`, `related` and `summary_fields` are always written; the other fields only when not empty, each with its own value |
| Organizations.MembersArePayload | awx/organizations.go:133-134 | the members encoded are exactly the payload's, in declaration order |
| Organizations.ZeroPayload | awx/organizations.go:125-134 | a fresh organization is sent as an empty name with its two zero structs |
| Organizations.LookupMembers | awx/organizations.go:147-148 | looking a field's key up in the encoding finds its value exactly when it was written |
| Organizations.Decoded | awx/organizations.go:147-148 | each field is taken from the member under its key, or left zero |
| Organizations.DecodeMembers | awx/organizations.go:133-148 | decoding the encoding of an organization gives it back |
| Organizations.ItemUrl | awx/organizations.go:155 | the intended item URL, which parses back to exactly its id, negative ones included |
| Organizations.ItemUrlAsWritten | awx/organizations.go:155 | the URL as the source formats it; for a base URL without `%` it is the intended item URL |
| Organizations.CollectionUrl | awx/organizations.go:131 | the base URL followed by `/organizations/`, a route that names no item |
| Organizations.Body | awx/organizations.go:133-134 | a nil organization encodes as `null`; any other as an object from which decoding recovers it |
| Organizations.FromBody | awx/organizations.go:147-148 | an answer that is the encoding of an organization decodes to it; when parsing fails or gives no object, the decode error is ignored and `new(Organization)` is returned |
| Organizations.AsWrittenWithPercent | awx/organizations.go:155 | for a base URL with one `%d`, the id fills the base's `%d` and the item's `%d` reports MISSING, which is not the intended URL |
| Organizations.CreateOrganization | awx/organizations.go:130-152 | POSTs the encoding to `BaseURL + "/organizations/"` and returns the decoded answer and the body; any error returns nothing else |
| Organizations.ReadOrganization | awx/organizations.go:154-172 | GETs the intended item URL `ItemUrl` (see Findings) without an id check and returns the decoded answer and the body |
| Organizations.UpdateOrganization | awx/organizations.go:174-196 | PUTs the encoding to the intended item URL `ItemUrl` (see Findings); when the request cannot be built it ends the process and sends nothing |
| Organizations.DeleteOrganization | awx/organizations.go:198-215 | DELETEs the intended item URL `ItemUrl` (see Findings) and decodes nothing |

## Left out

- Real HTTP, the network and JSON text are oracles: `refuse`/`server` in `Rest`, `reject`/`transport` in `Godo`, and `parse` in `Organizations`. The code of `NewRequest`, `Do`, `Response` and `NewArgError` is not part of this model, so they are abstract.
- Go's `ctx` arguments are dropped: nothing in the core reads them.
- The response and resource types (`JobTemplate`, `Project`, ...) are opaque `Resource` values. Their `Related` and `SummaryFields` shapes are outside the model.
- Organizations.Decoded: decoding a nested struct member replaces the field's value; it does not merge members into the zero struct the way encoding/json does.
- Organizations.Decoded: a field takes the first member whose key matches its tag exactly. encoding/json also accepts a case-insensitive match when there is no exact one, and a later duplicate key overwrites an earlier one. So on the answer `{"Name": "x"}` Go sets the name to "x", while the model leaves it "".
- Organizations.ReadOrganization: uses the intended item URL `ItemUrl`, not the source's `fmt.Sprintf(s.BaseURL+"/organizations/%d/", id)`. The two differ when BaseURL contains `%`; see Findings.
- Organizations.UpdateOrganization: uses the intended item URL `ItemUrl`, not the source's Sprintf URL. The two differ when BaseURL contains `%`; see Findings.
- Organizations.DeleteOrganization: uses the intended item URL `ItemUrl`, not the source's Sprintf URL. The two differ when BaseURL contains `%`; see Findings.
- Key distinctness, which makes decoding well defined, is proved only for `Organizations`. The service payloads are related to the wire through `Json.Wire` and `Json.Unmarshal`.
- nil and empty slices are not told apart: a failed `List` returns an empty sequence where Go returns nil.
- `log.Fatal` is not a process exit. `UpdateOrganization` reports it through its flag `exited`, with nothing sent.
- The newline that `json.Encoder.Encode` appends to its output is not modelled.
- Fmt.Sprintf: covers only `%d` and `%%` with `int` arguments, plus the MISSING, NOVERB and EXTRA reports. Any other verb, flag or width gives None.
- The root-level `organizations.go` is not part of this model.
- Concurrency and the closing of response bodies are outside the model.

## Findings

| source | as written | input that shows it | evidently intended | confidence | as-written member | corrected member |
|---|---|---|---|---|---|---|
| awx/organizations.go:155 (also 175, 199) | `fmt.Sprintf(s.BaseURL+"/organizations/%d/", id)`: the base URL becomes part of the format | BaseURL `http://awx/%d`, id 5: the URL is `http://awx/5/organizations/%!d(MISSING)/` | the base URL, `/organizations/`, the id and `/`, as `CollectionUrl` builds it | not executed | Organizations.ItemUrlAsWritten, Organizations.AsWrittenWithPercent | Organizations.ItemUrl |
