# incident.io Terraform provider: client and resources

This project models the core of the incident.io Terraform provider. The
provider has two layers:

- a small HTTP client for the incident.io REST API (`incidentio/`). It builds
  authenticated requests, judges response statuses and decodes JSON bodies for
  custom fields, custom field options, incident roles and severities;
- four Terraform resources built on that client (`internal/provider/`). They
  turn plans and state into API calls. The layer also holds the attribute
  validators and the default-value plan modifiers.

The network is a parameter. Every accessor takes the transport's outcome as a
`Reply`: no response at all, a response whose body could not be read, or a
status and a body. A body carries its raw text and its two possible
decodings, as the operation's target and as an API error. Each decoding may
fail on its own: on text that is not JSON, or on a field whose JSON type does
not match the Go struct. An accessor returns a `Call`: the request it
put on the wire, if any, and its result. A resource operation returns a
`Step`: the request it sent, what it did to Terraform state (nothing, stored a
record, or removed the resource), and the client error it reported.

The accessors differ from kind to kind. Some accept only 200, some refuse
only 404, and one never looks at the status. Deletes confirm with 202 or with
204. Some accessors report errors as decoded API errors, others as
"status, body" errors. These differences are written once as data, in the
`Policy` table. Every accessor is proved to follow its row. The table also
carries lemmas that compare the rows.

Points where the code behaves in a way a reader may not expect:

- URL joining inserts one "/" only when neither the host nor the path has one.
  A host ending in "/" and a path starting with "/" therefore give "//"
  (`Api.JoinUrlDoubleSlash`).
- The client sets only the `Authorization` header. No content type is set.
- Every caller of `NewErrors` except the incident role create uses it as if it
  returned one value, but it returns two. These callers are the generic
  helpers and the custom field, custom field option and severity accessors. They are modelled like the incident
  role create, which uses both results: a decodable body becomes the API
  error, and an undecodable one becomes a decoding error.
- A comment in the generic delete says severities return 204. The code accepts
  both 202 and 204 there, and the severity accessor accepts 202 and 404.

## Model

| member | source | states |
|---|---|---|
| Api.JoinUrl | incidentio/client.go:43-53 | the URL starts with the host and ends with the path. It adds exactly one byte, a "/" at the seam, when neither side has a slash there, and nothing otherwise |
| Api.JoinUrlSingleSlash | incidentio/client.go:45-51 | unless both sides have a slash at the seam, the URL is the host without its trailing slash, then "/", then the path without its leading slash |
| Api.JoinUrlDoubleSlash | incidentio/client.go:45-51 | a host ending in "/" joined to a path starting with "/" keeps both slashes |
| Api.JoinUrlExamples | incidentio/client.go:43-53 | the two concrete joins: a slash on both sides gives "//", and no slash on either side gives one "/" |
| Api.BearerToken | incidentio/client.go:56 | an `Authorization` value has a token exactly when it starts with "Bearer ". That value is the prefix followed by the token |
| Api.Authorize | incidentio/client.go:55-56 | the request gains an `Authorization` header whose bearer token is the API key. No other header, the method, the URL and the body all stay the same |
| Api.ClientConfiguration | incidentio/client.go:14-41 | a new client sends to the production host with a 10-second timeout and debugging off. `WithHostURL` redirects every request. `WithDebug` turns debugging on without changing any request. The bearer token is always the API key |
| Policy.DeletePolicies | incidentio/client.go:197-201 | every kind's delete accepts 404. Severities confirm with 202 and not 204, the other kinds with 204 and not 202. The generic delete accepts both 202 and 204 but not 404 |
| Policy.TolerantAccessors | incidentio/incident_role.go:55-57 | for any status other than 200 and 404, only incident role and severity reads pass it as a success. Only the incident role update passes it |
| Policy.EmptyIdChecks | incidentio/incident_role.go:40-43 | among the per-kind accessors, only reads refuse an empty id before sending. The generic helpers refuse it for every verb except create |
| Crud.Get | incidentio/client.go:88-114 | follows the generic read row: an empty id sends nothing. A non-200 status gives the body's API error. A 200 decodes the target. The request is an authenticated GET of `/v1/{part}/{id}` |
| Crud.Create | incidentio/client.go:116-144 | follows the generic create row: POST of the input to `/v1/{part}`. Only 201 decodes the target |
| Crud.Update | incidentio/client.go:146-178 | follows the generic update row: an empty id sends nothing. PUT of the input to `/v1/{part}/{id}`. Only 200 decodes the target |
| Crud.Delete | incidentio/client.go:180-204 | follows the generic delete row: an empty id sends nothing. 202 and 204 are success. Anything else gives the body's API error |
| Crud.GenericDeleteRefusesNotFound | incidentio/client.go:199-201 | a 404 on the generic delete is an error, even when the body decodes |
| CustomFields.ParseFieldType | incidentio/custom_field.go:20-29 | succeeds exactly on the five field types and returns the input unchanged. Any other string is refused with an error naming it |
| CustomFields.ParseFieldRequirement | incidentio/custom_field.go:39-48 | succeeds exactly on "never", "before_closure" and "always" and returns the input unchanged. Any other string is refused with an error naming it |
| CustomFields.Get | incidentio/custom_field.go:81-107 | follows the custom field read row: GET of `/v1/custom_fields/{id}`, empty id refused, only 200 decodes |
| CustomFields.Create | incidentio/custom_field.go:109-136 | follows the create row: POST to `/v1/custom_fields`, only 201 decodes |
| CustomFields.Update | incidentio/custom_field.go:138-165 | follows the update row: PUT to `/v1/custom_fields/{id}`, only 200 decodes, an empty id is sent as is |
| CustomFields.Delete | incidentio/custom_field.go:167-180 | follows the delete row: 204 and 404 succeed. Any other status is a "status, body" error. A status that passes does not hide a failed body read |
| CustomFields.CreateSendsUnparsedFieldType | incidentio/custom_field.go:109-136 | the client does not check enumerations: a field type the parser refuses is still sent, and a 201 reply makes the call succeed |
| CustomFieldOptions.Get | incidentio/custom_field_option.go:35-61 | follows the custom field option read row: GET of `/v1/custom_field_options/{id}`, empty id refused, only 200 decodes |
| CustomFieldOptions.Create | incidentio/custom_field_option.go:63-90 | follows the create row: POST to `/v1/custom_field_options`, only 201 decodes |
| CustomFieldOptions.Update | incidentio/custom_field_option.go:92-119 | follows the update row: PUT to `/v1/custom_field_options/{id}`, only 200 decodes |
| CustomFieldOptions.Delete | incidentio/custom_field_option.go:121-134 | follows the delete row: 204 and 404 succeed. Anything else is a "status, body" error |
| IncidentRoles.Get | incidentio/incident_role.go:40-66 | follows the incident role read row: only 404 is refused, as a "status, body" error. Every other status decodes the body as the role |
| IncidentRoles.Create | incidentio/incident_role.go:68-99 | follows the create row: POST to `/v1/incident_roles`. A status other than 201 gives the API error, or a decoding error when the body does not decode as one |
| IncidentRoles.Update | incidentio/incident_role.go:101-124 | follows the update row: PUT to `/v1/incident_roles/{id}`. The status is never checked and the body is decoded whatever it is |
| IncidentRoles.Delete | incidentio/incident_role.go:126-139 | follows the delete row: 204 and 404 succeed |
| IncidentRoles.GetAcceptsServerError | incidentio/incident_role.go:55-65 | a 500 reply whose body is JSON is returned as a successfully read role |
| Severities.Get | incidentio/severity.go:37-63 | follows the severity read row: only 404 is refused. Every other status decodes the body |
| Severities.Create | incidentio/severity.go:65-92 | follows the create row: POST to `/v1/severities`, only 201 decodes |
| Severities.Update | incidentio/severity.go:94-121 | follows the update row: PUT to `/v1/severities/{id}`, only 200 decodes |
| Severities.Delete | incidentio/severity.go:123-136 | follows the delete row: 202 and 404 succeed |
| Severities.DeleteAcceptsOnlyAccepted | incidentio/severity.go:131-133 | a 204 reply to a severity delete is an error that carries the status |
| Validators.Utf8Width | internal/provider/validators.go:52 | one character, a Unicode scalar value, takes between one and four bytes of UTF-8. Go's `len` of a string (`Utf8Len`) is the sum of these widths |
| Validators.Utf8LenBounds | internal/provider/validators.go:52 | a string takes at least one and at most four bytes per character |
| Validators.Utf8LenUniform | internal/provider/validators.go:52 | a string whose characters all have width w takes w bytes per character |
| Validators.StringLengthBetween | internal/provider/validators.go:18-23 | the validator holds the given minimum and maximum |
| Validators.ValidateLength | internal/provider/validators.go:36-62 | null and unknown values pass. A known value passes exactly when its byte length is in the closed range. A refusal is one "Invalid String Length" error on the attribute |
| Validators.ValidateFieldType | internal/provider/validators.go:78-99 | null and unknown values pass. A known value passes exactly when the field type parser accepts it. A refusal is one "Invalid field type" error |
| Validators.ValidateFieldRequirement | internal/provider/validators.go:115-136 | null and unknown values pass. A known value passes exactly when the requirement parser accepts it. A refusal is one "Invalid field requirement" error |
| Validators.EnumValidatorsAcceptSets | internal/provider/validators.go:64-136 | the two enumeration validators accept exactly the five field types and the three requirements |
| Validators.LengthByCharacters | internal/provider/validators.go:52-61 | for a range starting at or below zero, max/4 characters always fit and more than max characters never do |
| Modifiers.DefaultIfNull | internal/provider/modifiers.go:30-34 | a null configuration makes the plan a known, non-null value holding the default. Any other configuration, unknown included, keeps the plan |
| Modifiers.PlanModifyBool | internal/provider/modifiers.go:30-34 | a null configuration plans the known default boolean. Otherwise the plan is kept |
| Modifiers.PlanModifyInt64 | internal/provider/modifiers.go:55-59 | a null configuration plans the known default integer. Otherwise the plan is kept |
| Modifiers.PlanModifyString | internal/provider/modifiers.go:80-84 | a null configuration plans the known default string. Otherwise the plan is kept |
| Modifiers.DefaultIdempotent | internal/provider/modifiers.go:30-34 | running a modifier again on its own output changes nothing |
| Modifiers.TypedAgainstAttributeModifier | internal/provider/modifiers.go:30-34 | compared with the corrected attribute modifier, the typed modifiers agree when a value is configured. They also agree when nothing is configured and the plan is null or unknown. Only the typed ones overwrite a plan that already holds another known value |
| PlanModifiers.ModifyAsWritten | internal/provider/plan_modifiers.go:20-53 | with the guard as written, the modifier never replaces the plan, whatever the configuration and plan. An unconvertible configuration is still reported, and at most two errors are reported |
| PlanModifiers.AsWrittenCounterexample | internal/provider/plan_modifiers.go:46-52 | a null configuration with an unknown plan keeps the unknown plan as written. The corrected rule puts the default there |
| PlanModifiers.Modify | internal/provider/plan_modifiers.go:20-53 | no plan or no configuration: nothing changes. Set and unset are judged by the value a conversion returns, even when it also returns an error. A configuration that is set keeps the plan. A plan that reads as known and not null is kept. An unset configuration with any other plan gets the default. An unconvertible configuration is reported. At most two errors are reported |
| PlanModifiers.FailedConversionReadings | internal/provider/plan_modifiers.go:25-36 | an unconvertible configuration over an unknown plan lets the default in when the failed conversion reads as null. When it reads as unknown, the plan is kept. One error is reported either way |
| Lifecycle.DeleteFailure | internal/provider/custom_field_resource.go:214-223 | a delete reports nothing exactly when it succeeded or failed with a 404 error. Otherwise it reports the error unchanged |
| Lifecycle.ConfigureChecked | internal/provider/custom_field_option_resource.go:75-93 | with no provider data nothing changes. A client becomes the resource's client. Anything else raises a diagnostic and keeps the old client. The severity resource is configured the same way |
| CustomFieldResource.Create | internal/provider/custom_field_resource.go:106-136 | POSTs the plan's fields, each null or unknown as its zero value, with no options. It succeeds exactly on a decodable 201 reply and then stores the plan under the returned id. On failure nothing is stored |
| CustomFieldResource.Read | internal/provider/custom_field_resource.go:138-171 | sends a request exactly when the stored id is not empty. It removes the resource exactly when the error body says 404. It stores exactly on a decodable 200, and the stored record is the returned field. Otherwise it reports an error |
| CustomFieldResource.Update | internal/provider/custom_field_resource.go:173-202 | PUTs the plan's fields to the plan's id. It stores the plan exactly on a decodable 200 |
| CustomFieldResource.Delete | internal/provider/custom_field_resource.go:204-224 | DELETEs the stored id and never writes state. It is quiet exactly on a 204 or 404 reply |
| CustomFieldResource.CreateReadRoundTrip | internal/provider/custom_field_resource.go:106-171 | creating and then reading back a server echo of the submitted fields stores the record the create stored |
| IncidentRoleResource.Configure | internal/provider/incident_role_resource.go:86-92 | with no provider data nothing changes. Otherwise the client becomes the resource's client |
| IncidentRoleResource.Create | internal/provider/incident_role_resource.go:94-122 | POSTs the plan's five fields. It succeeds exactly on a decodable 201 and then stores the plan under the returned id |
| IncidentRoleResource.Read | internal/provider/incident_role_resource.go:124-156 | sends exactly when the id is not empty. It removes the resource exactly on a 404 reply. It stores the returned role on any other decodable reply, the role type dropped |
| IncidentRoleResource.Update | internal/provider/incident_role_resource.go:158-185 | PUTs the plan's fields. It stores the plan on any decodable reply, whatever the status |
| IncidentRoleResource.Delete | internal/provider/incident_role_resource.go:187-207 | DELETEs the stored id and never writes state. It is quiet exactly on 204 or 404 |
| IncidentRoleResource.CreateReadRoundTrip | internal/provider/incident_role_resource.go:94-156 | create then read of a server echo, with any role type, stores what the create stored |
| CustomFieldOptionResource.Create | internal/provider/custom_field_option_resource.go:95-121 | POSTs custom field id, sort key and value. It succeeds exactly on a decodable 201 and stores the plan under the returned id |
| CustomFieldOptionResource.Read | internal/provider/custom_field_option_resource.go:123-153 | sends exactly when the id is not empty. It removes the resource exactly when the error body says 404. It stores the returned option exactly on a decodable 200 |
| CustomFieldOptionResource.Update | internal/provider/custom_field_option_resource.go:155-180 | PUTs the plan's fields. It stores the plan exactly on a decodable 200 |
| CustomFieldOptionResource.Delete | internal/provider/custom_field_option_resource.go:182-202 | DELETEs the stored id and never writes state. It is quiet exactly on 204 or 404 |
| CustomFieldOptionResource.CreateReadRoundTrip | internal/provider/custom_field_option_resource.go:95-153 | create then read of a server echo stores what the create stored |
| SeverityResource.Create | internal/provider/severity_resource.go:100-126 | POSTs name, description and rank. It succeeds exactly on a decodable 201 and stores the plan under the returned id |
| SeverityResource.Read | internal/provider/severity_resource.go:128-158 | sends exactly when the id is not empty. It removes the resource exactly on a 404 reply. It stores the returned severity on any other decodable reply |
| SeverityResource.Update | internal/provider/severity_resource.go:160-185 | PUTs the plan's fields. It stores the plan exactly on a decodable 200 |
| SeverityResource.Delete | internal/provider/severity_resource.go:187-207 | DELETEs the stored id and never writes state. It is quiet exactly on 202 or 404 |
| SeverityResource.CreateReadRoundTrip | internal/provider/severity_resource.go:100-158 | create then read of a server echo stores what the create stored |
| SeverityResource.NameLengthInBytes | internal/provider/severity_resource.go:57-61 | names of at most 12 characters always pass the 50-byte bound and names of more than 50 characters never do. 26 copies of "é" are refused, because they take 52 bytes |
| SeverityResource.DescriptionLengthInBytes | internal/provider/severity_resource.go:65-69 | descriptions of at most 250 characters always pass the 1000-byte bound and descriptions of more than 1000 characters never do |

## Left out

- HTTP transport: sending, the 10-second timeout, connection reuse and reading bodies are replaced by the `Reply` parameter. The timeout is kept only as a number on the client.
- Debug dumps: with debugging on, the client prints requests and responses and panics if a dump fails. That output is not modelled.
- JSON encoding: a request body is the typed value itself. A response is its two decodings, taken as given. Marshalling never fails for these plain structs, so that error path is absent.
- A `null` response body: Go decodes it without error into a nil pointer. The accessors then return no value and no error, and the resources dereference nil. The incident role create also returns a nil API error as a non-nil error. The model has no such body. A decoding either fails or yields a value.
- Api.WithHostURL, Api.WithDebug: the source changes the client in place and returns the same pointer, so every holder of the client sees the change. The model returns an updated copy and leaves that sharing out.
- Building requests: `http.NewRequest` can fail on a malformed URL. The model treats every URL as well-formed.
- Error messages: the text of each error (`Error()` of an API error, the "you must specify an ID" messages) is not modelled. The kind of error and the fields it carries are.
- `IsErrorStatus`: its definition is not part of this model. It is taken to match a decoded API error by the status written in its body, and a "status, body" error by the response status.
- IncidentRoleResource.Read: removal on 404 depends on the reading of `IsErrorStatus` above. The incident role accessor reports a 404 only as a "status, body" error. If `IsErrorStatus` did not match that error, the resource would report an error instead of removing itself.
- SeverityResource.Read: removal on 404 depends on the same reading. The severity accessor also reports a 404 only as a "status, body" error.
- IncidentRoleResource.Configure: requires provider data that is either absent or a client. The source asserts the type without checking, and would panic on anything else. The provider always hands over a client (internal/provider/provider.go:63-65).
- Per-kind deletes: after a failed connection they read the status of a missing response and would crash. The per-kind delete accessors and the resource `Delete` functions built on them therefore require a reply that is not `ConnectFailed`.
- Terraform framework plumbing: reading the plan or state into a struct, writing state, schemas, metadata, import pass-through, and the provider's own configuration with its environment variables. A resource is modelled as its data record and a `Step`. A diagnostic from `Plan.Get` or `State.Get` ends an operation before any request is sent, and that path is not modelled.
- `tfsdk.ValueAs` conversion failures in the validators: a string attribute always converts to a string value here.
- Attribute values: an unknown or null value is sent as its zero value (`StringOf`, `BoolOf`, `Int64Of`). That matches reading `.Value` of an unset framework value.
- The custom field resource's provider data: it reads the client from its provider, which the older framework wiring set up. Its lifecycle functions take the client as a parameter, as the other resources do after `Configure`.
- Description texts of validators and modifiers are not modelled.

## Findings

| source | as written | input that shows it | evidently intended | confidence | as-written member | corrected member |
|---|---|---|---|---|---|---|
| internal/provider/plan_modifiers.go:48 | keeps the plan when its value is not null or is known. A null value counts as known, so the guard always holds and the default is never assigned | configuration null, plan unknown: the plan stays unknown instead of becoming the default | keep the plan only when it is known and not null, as the comment above the guard says | medium, not executed | PlanModifiers.ModifyAsWritten, PlanModifiers.AsWrittenCounterexample | PlanModifiers.Modify |
