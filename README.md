# IsardVDI Terraform provider — a Dafny model of its decision layer

This project models the mixture of decisions and state changes that the IsardVDI Terraform provider performs. These are the parts that lie between the HTTP calls it makes and the Terraform state it writes.

- **Deployment create** (`Deployment`, `DeploymentLemmas`). It fetches a template. It then resolves the POSTed payload field by field from the caller's override, the template, and fixed defaults: hardware copies, `videos`, `vcpus`, `memory` in KiB→GB, `interfaces`, `reservables`, merged guest properties, and `image`. The client code builds this payload by successive map insertions and two copy loops. `BuildPayload`, `BuildHardware` and `CopyEntries` do the same, and are proved equal to the field-by-field specification `Encode(Resolve(o, t))`. One lemma per precedence rule states each rule over the decoded template object.
- **Status classification** (`Transport`, `Deployment`, `IsardClient`). Every lifecycle call reduces its reply to `Ok(v) | NotFound | Err(e)`: create, get, update, delete, start and stop of a deployment; the template lookup; and create, get and delete of a persistent desktop.
- **Sign-in and token negotiation** (`IsardClient`, `IsardClientLemmas`). `Client` is a class with a mutable `token`.
  - `SignIn` dispatches on the authentication method.
  - `ExecuteAuth` probes the reply for `data`, then `token`, then `data.token`, then falls back to the raw body.
  - Both methods change the token only on success.
  - The probing order is also given as a list of shapes, with `FirstMatch` as the reference definition.
- **Terraform-facing updates**:
  - the `isard_vm` resource's Create/Read/Update/Delete, which rewrite plan and state fields conditionally, with remove-on-404 (`VmResource`);
  - the groups data source's filter loop and mapping loop (`GroupsDataSource`);
  - the provider's configuration defaulting and validation, client creation and sign-in (`Provider`).

Each HTTP exchange is a parameter of type `HttpResult`: a transport failure, or a status code with the raw body and its decoded JSON. Each operation's contract then states what it returns or writes for every possible reply.

JSON numbers are reals standing for `float64`. Go's `int(x)` on a float is `Trunc`, which rounds toward zero. The KiB→GB conversion `int(m / 1024 / 1024)` is `KibToGb`, which equals integer division by 1048576 on non-negative whole inputs.

## Where the code and its comments differ

The model follows the code:
- `interfaces` never comes from the template, although the comment at `internal/client/deployment.go:134` says it may.
- A template's own `videos` list is copied as it is, so an empty template list gives an empty `videos`. Only the default branch is guaranteed non-empty.
- The comment at `internal/provider/provider.go:132` says token authentication does nothing. In fact `SignIn` sends the configured token to the "saml" provider and replaces it with the negotiated one.
- A missing template (404) is an ordinary error for a deployment create, not a distinct outcome.
- `DataSources` at `internal/provider/provider.go:160-164` returns an empty list, so the `isard_groups` data source modelled by `GroupsDataSource` is never registered with the provider.

## Model

| member | source | states |
|---|---|---|
| JsonValues.DecodeObject | internal/client/isard_client.go:94-95 | unmarshalling into a Go map succeeds exactly for an object (its fields) or `null` (the empty map) |
| JsonValues.Trunc | internal/client/deployment.go:118-120 | `int(x)` is the integer part, rounded toward zero, for positive and negative inputs |
| JsonValues.KibToGbWhole | internal/client/deployment.go:127-129 | for whole KiB, `int(m/1024/1024)` is integer division by 1048576 |
| Transport.Accept | internal/client/deployment.go:359-363 | a call accepting a status set succeeds exactly on those statuses; any other status is `Status(code, body)`; a transport failure is `Transport` |
| Transport.CreatedId | internal/client/deployment.go:197-212 | a create succeeds only on 200/201 with an object body whose `id` is a string; a refused status, a malformed body and a missing id are three distinct errors, and a transport failure is `Transport`; never `NotFound` |
| Transport.ReadReply | internal/client/deployment.go:238-244 | 404 is `NotFound`, any other non-200 status is an error carrying the body, a transport failure is `Transport`, and 200 passes the body on |
| Deployment.MergeGuestProperties | internal/client/deployment.go:146-162 | the merged keys are the union; override keys take the override value; other template keys keep theirs |
| Deployment.PutPresent | internal/client/deployment.go:91-105 | a template key is inserted exactly when the template has it |
| Deployment.BuildPayload | internal/client/deployment.go:70-171 | the payload built by successive insertions equals the field-by-field resolution `Encode(Resolve(o, t))` |
| Deployment.BuildHardware | internal/client/deployment.go:87-143 | the hardware map built step by step equals the resolved hardware object |
| Deployment.CopyGuestProperties | internal/client/deployment.go:146-160 | the two copy loops produce the template properties overlaid by the override |
| Deployment.CopyEntries | internal/client/deployment.go:150-152 | a `range` copy loop leaves the target overlaid by every source entry |
| Deployment.GetTemplateInfo | internal/client/deployment.go:449-458 | only 200 with an object (or null) body succeeds; another body is `Malformed`, a transport failure `Transport`; a 404 is an error like any other status, never `NotFound` |
| Deployment.CreateDeployment | internal/client/deployment.go:58-212 | a failed template lookup posts nothing and returns a template-fetch error; otherwise the resolved payload is posted and the result is the create-reply classification |
| Deployment.DecodeDeploymentInfo | internal/client/deployment.go:29-41 | an object decodes exactly when every known field has its struct kind or is null; null decodes to the zero struct; each field is its key's value of the right kind (`template` for the template id), else its zero value |
| Deployment.GetDeployment | internal/client/deployment.go:238-252 | 404 and only 404 is `NotFound`; other non-200 statuses are errors with the body; an undecodable 200 body is `Malformed`, a transport failure `Transport`; success is the decoded struct |
| Deployment.GetDeploymentInfo | internal/client/deployment.go:278-292 | the same status rule and error cases, with the body decoded into a map |
| Deployment.UpdateDeployment | internal/client/deployment.go:323-327 | success exactly on 200 |
| Deployment.DeleteDeployment | internal/client/deployment.go:359-363 | success exactly on 200, 204 or 404 |
| Deployment.StartDeployment | internal/client/deployment.go:389-393 | success exactly on 200 |
| Deployment.StopDeployment | internal/client/deployment.go:419-423 | success exactly on 200 |
| DeploymentLemmas.PostedShape | internal/client/deployment.go:71-171 | the POSTed object has exactly the ten top-level keys, with `hardware` the resolved hardware object |
| DeploymentLemmas.VideosRule | internal/client/deployment.go:107-114 | `videos` is always present and is the template's `videos`, else its `video`, else `["default"]` (also when the template has no hardware map) |
| DeploymentLemmas.TemplateVideosCopiedEvenWhenEmpty | internal/client/deployment.go:108-109 | an empty template `videos` list is posted as it is |
| DeploymentLemmas.VcpusRule | internal/client/deployment.go:117-123 | the override wins; else the template's numeric `vcpus`, truncated; else 2 |
| DeploymentLemmas.MemoryRule | internal/client/deployment.go:125-132 | the override, truncated, wins; else the template's numeric KiB as whole GB; else 2 |
| DeploymentLemmas.MemoryFromTemplateKib | internal/client/deployment.go:127-129 | a template memory of `kib` KiB with no override posts `kib / 1048576`, so 4194304 KiB gives 4 |
| DeploymentLemmas.InterfacesIgnoreTemplate | internal/client/deployment.go:135-139 | `interfaces` is the non-empty override, else `["default","wireguard"]`, whatever the template holds |
| DeploymentLemmas.ReservablesFixed | internal/client/deployment.go:142 | `reservables` is `{"vgpus":["None"]}` for every template and override |
| DeploymentLemmas.CopiedHardwareKeys | internal/client/deployment.go:91-105 | each of the five copied keys is present exactly when the template hardware has it, with the template's value |
| DeploymentLemmas.NoTemplateHardware | internal/client/deployment.go:66-142 | with no template hardware map, the hardware has exactly the five resolved keys, each at its fallback or override |
| DeploymentLemmas.UserPermissionsRule | internal/client/deployment.go:81-85 | `user_permissions` is always present and is the caller's list, `[]` when none is given |
| DeploymentLemmas.PassThroughFields | internal/client/deployment.go:71-78 | name, description, template_id, desktop_name, visible and allowed come from the caller only |
| DeploymentLemmas.GuestPropertiesRule | internal/client/deployment.go:146-162 | posted guest properties: the union of keys, override values winning, template values otherwise |
| DeploymentLemmas.GuestPropertiesExample | internal/client/deployment.go:146-162 | `{a:1,b:2}` overlaid by `{b:9,c:3}` gives `{a:1,b:9,c:3}` |
| DeploymentLemmas.ImageRule | internal/client/deployment.go:165-171 | `image` is the non-empty override, else the template's image map, else `{"type":"user"}` |
| DeploymentLemmas.TemplateFailureStopsCreate | internal/client/deployment.go:449-451 | a transport failure or a non-200 template reply makes the lookup fail (and so, by `CreateDeployment`, nothing is posted) |
| DeploymentLemmas.ReadDistinguishesNotFound | internal/client/deployment.go:238-244 | a 404 read is `NotFound` and a 500 read is a status error with the body, for both read calls |
| DeploymentLemmas.DeleteIdempotent | internal/client/deployment.go:359-360 | a reply that a read reports as not found is a successful delete |
| IsardClient.AuthRequestFor | internal/client/isard_client.go:42-85 | only "token" and "form" send a request: "token" sends the current token to provider "saml", "form" sends username and password to provider "form", both with the category id |
| IsardClient.DoRequest | internal/client/isard_client.go:316-333 | the body is passed on exactly for 200/201; any other status is an error with the body; a transport failure is `Transport` |
| IsardClient.FirstMatch | internal/client/isard_client.go:98-114 | the result is the token of the first matching shape, and it is none exactly when no shape matches |
| IsardClient.ProbeToken | internal/client/isard_client.go:94-125 | negotiation fails exactly when the body is empty and no shape matches, with the no-token error |
| IsardClient.AuthShapesInOrder | internal/client/isard_client.go:98-114 | the shape list tries `data` as a string, then `token`, then `data.token`, in that order |
| IsardClient.Client.constructor | internal/client/isard_client.go:24-39 | a new client holds the given host and token |
| IsardClient.Client.SignIn | internal/client/isard_client.go:42-85 | the request sent is `AuthRequestFor`'s; no request means no error and an unchanged token; otherwise the token is the negotiated one on success and unchanged on error |
| IsardClient.Client.ExecuteAuth | internal/client/isard_client.go:87-126 | the token becomes the negotiated token on success; on every error path it is unchanged and the error is returned |
| IsardClient.DesktopPayload | internal/client/isard_client.go:186-205 | always `name` and `template_id`; `description` only when non-empty; `hardware` exactly when vcpus or memory is given, holding only those |
| IsardClient.CreatePersistentDesktop | internal/client/isard_client.go:182-246 | the posted body satisfies the payload rule, and the result is the create-reply classification |
| IsardClient.DesktopOf | internal/client/isard_client.go:286-312 | the id is the requested one; the template comes from `create_dict.origin`; vcpus are truncated; absent or mistyped fields, inside a present `hardware` object too, stay at zero |
| IsardClient.GetDesktop | internal/client/isard_client.go:272-313 | 404 and only 404 is `NotFound`; other non-200 statuses are errors; an undecodable 200 body is `Malformed`, a transport failure `Transport`; success is `DesktopOf` of the decoded body |
| IsardClient.DeleteDesktop | internal/client/isard_client.go:153-157 | success exactly on 200, 204 or 404, an error with the body otherwise |
| IsardClientLemmas.DataStringFirst | internal/client/isard_client.go:98-101 | a string `data` is the token, checked before any other shape |
| IsardClientLemmas.TokenStringSecond | internal/client/isard_client.go:103-106 | otherwise a string `token` is the token |
| IsardClientLemmas.NestedTokenThird | internal/client/isard_client.go:109-114 | otherwise a string `token` inside a `data` object is the token |
| IsardClientLemmas.RawBodyFallback | internal/client/isard_client.go:119-123 | a non-JSON or non-matching non-empty body is the token verbatim |
| IsardClientLemmas.EmptyBodyNoToken | internal/client/isard_client.go:119-125 | an empty accepted body yields the no-token error |
| IsardClientLemmas.RefusedStatusIsError | internal/client/isard_client.go:88-91 | a status other than 200/201 is an error before the body is parsed |
| IsardClientLemmas.NegotiationExamples | internal/client/isard_client.go:94-123 | the three JSON shapes and a plain-text body give the expected tokens |
| IsardClientLemmas.NullReplyIsRawToken | internal/client/isard_client.go:94-123 | a JSON `null` body decodes to the nil map, matches nothing, and its text becomes the token |
| IsardClientLemmas.TokenMethodSignsIn | internal/client/isard_client.go:43-56 | the "token" method sends a GET to provider "saml" with the token as the Authorization header |
| Terraform.KnownOption | internal/provider/resource_isard_vm.go:118-126 | a value is passed on exactly when it is neither null nor unknown |
| VmResource.AfterCreate | internal/provider/resource_isard_vm.go:145-158 | the state id is the new id; a failed refresh keeps the plan; a successful one overwrites description only when non-empty and vcpus/memory only when positive |
| VmResource.AfterRead | internal/provider/resource_isard_vm.go:190-201 | name, description and template are always taken from the server, vcpus/memory only when positive; the id is kept |
| VmResource.Create | internal/provider/resource_isard_vm.go:106-164 | hardware is sent only for known plan values; a failed create adds "Error creando el persistent desktop" and no state; otherwise the refreshed plan is stored |
| VmResource.Read | internal/provider/resource_isard_vm.go:167-205 | not found removes the resource with no diagnostic; other errors add "Error leyendo el desktop"; success stores the refreshed state |
| VmResource.Update | internal/provider/resource_isard_vm.go:208-222 | the plan is stored unchanged and nothing is sent |
| VmResource.Delete | internal/provider/resource_isard_vm.go:225-244 | a failure adds "Error eliminando la máquina virtual"; success changes nothing |
| VmResource.ReadIdempotent | internal/provider/resource_isard_vm.go:190-201 | reading the same desktop twice stores what reading once stores |
| VmResource.CreateRefreshSubsumedByRead | internal/provider/resource_isard_vm.go:147-158 | a later read of the same desktop overrides everything the create's refresh wrote |
| VmResource.ReadKeepsId | internal/provider/resource_isard_vm.go:176-201 | a successful read keeps the state's id, which is the id the desktop was read by |
| GroupsDataSource.FilterGroups | internal/provider/data_source_isard_groups.go:120-133 | the loop with `continue` computes the order-preserving filter `Filtered` |
| GroupsDataSource.ToGroupModels | internal/provider/data_source_isard_groups.go:136-144 | the same length as the filtered list, entry i copying group i's four fields |
| GroupsDataSource.Read | internal/provider/data_source_isard_groups.go:102-149 | a fetch error adds "Client Error" and sets no state; otherwise the state holds id "groups", the same filters, and the mapped filtered groups |
| GroupsDataSource.KeptPositionsIndex | internal/provider/data_source_isard_groups.go:120-133 | the kept groups are the groups at strictly increasing positions of the input |
| GroupsDataSource.FilteredIsSubsequence | internal/provider/data_source_isard_groups.go:120-133 | the filtered list is an order-preserving subsequence of the fetched groups |
| GroupsDataSource.FilteredMembers | internal/provider/data_source_isard_groups.go:121-133 | a group is kept exactly when it is fetched and passes the name filter (when non-empty) and the category filter (when non-empty) |
| GroupsDataSource.EmptyFiltersKeepAll | internal/provider/data_source_isard_groups.go:117-133 | empty or null filters keep every group, in order |
| Provider.WithDefaultCategory | internal/provider/provider.go:102-104 | a null category becomes "default"; nothing else changes |
| Provider.ConfigError | internal/provider/provider.go:106-124 | "form" without username or password, and "token" without a token, are the only two validation errors, each with its message |
| Provider.Configure | internal/provider/provider.go:92-150 | a validation error or a sign-in failure adds its diagnostic and hands out no client; otherwise resources and data sources get the same fresh client with the negotiated token |
| Provider.NullCategorySignsInAsDefault | internal/provider/provider.go:102-104 | a null category reaches sign-in as "default" |
| Provider.NullMethodSendsNothing | internal/provider/provider.go:129-138 | an unset auth method passes validation and sends no request |
| Provider.UnknownTokenPassesCheck | internal/provider/provider.go:116-124 | an unknown token is not null: it passes the check and is sent as the empty credential |

## Left out

- HTTP transport, TLS (`InsecureSkipVerify`), the 60-second timeout, request construction, headers and URL formatting are I/O. Each call's reply is a parameter.
- `json.Marshal`, `json.Unmarshal` and multipart form writing are library calls. Decoded bodies are parameters, and `Encode` gives the JSON object handed to `json.Marshal`, not its bytes.
- `json.Unmarshal` matches struct field names case-insensitively and also accepts non-canonical keys. `Deployment.DecodeDeploymentInfo` matches keys exactly and treats any whole real as a valid `int` literal.
- Deployment.DecodeDeploymentInfo: duplicate keys and integer overflow in the `int` fields are not modelled, because Go's decoder behaviour for them lies outside the client.
- Floating point: JSON numbers are exact reals. `float64` rounding, `int` / `int64` range and overflow of `int(x)` are not modelled.
- `containsIgnoreCase` is a parameter of the groups data source, because its definition is not part of this model.
- `internal/client/groups.go` (`GetGroups`) is not part of this model. Its result is the `fetched` parameter of `GroupsDataSource.Read`. The `Group` fields other than id, name, description and parent category are left out.
- `main.go` (server bootstrap) is left out.
- The debug `println` in `SignIn` is left out.
- The `Schema`, `Metadata`, `New`, `Resources`, `DataSources` and per-resource `Configure` boilerplate is framework metadata and is left out.
- Reading the plan, config or state through the framework and its diagnostics (`req.Plan.Get`, `resp.State.Set` errors) is framework behaviour. Each operation starts from the decoded model.
- Error messages are not modelled.
  - `Detail.Cause` carries the client error where the code formats it with `fmt.Sprintf`.
  - The "desktop not found" text comparison is the `NotFound` outcome, because only the 404 branch produces that text.
- The distinction between nil and empty Go slices and maps is not modelled, because it makes no difference to what the code decides.
- The `permanent` flag of `DeleteDeployment` only shapes the URL, so it is left out.
- The `Deployment` struct is never used by the decision code, so it is left out.
