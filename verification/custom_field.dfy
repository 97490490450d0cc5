/**
 The custom field accessor and the two closed enumerations of a custom field
 (incidentio/custom_field.go).
 */
module CustomFields {
  import opened Wrappers
  import opened Api
  import CustomFieldOptions
  import Policy

  /** A field type travels as its wire string; a cast from any string is possible. */
  type FieldType = string

  /** A requirement policy travels as its wire string; a cast from any string is possible. */
  type FieldRequirement = string

  /** The field types the API defines. */
  const FieldTypes: set<string> := {"single_select", "multi_select", "text", "link", "numeric"}

  /** The requirement policies the API defines. */
  const FieldRequirements: set<string> := {"never", "before_closure", "always"}

  /** Why a string was refused by a parser. */
  datatype ParseError = NotAFieldType(input: string) | NotAFieldRequirement(input: string)

  function ParseFieldType(s: string): (r: Result<FieldType, ParseError>)
    ensures r.Success? <==> s in FieldTypes
    ensures r.Success? ==> r.value == s
    ensures r.Failure? ==> r.error == NotAFieldType(s)
  {
    match s
    case "single_select" => Success(s)
    case "multi_select" => Success(s)
    case "text" => Success(s)
    case "link" => Success(s)
    case "numeric" => Success(s)
    case _ => Failure(NotAFieldType(s))
  }

  function ParseFieldRequirement(s: string): (r: Result<FieldRequirement, ParseError>)
    ensures r.Success? <==> s in FieldRequirements
    ensures r.Success? ==> r.value == s
    ensures r.Failure? ==> r.error == NotAFieldRequirement(s)
  {
    match s
    case "never" => Success(s)
    case "before_closure" => Success(s)
    case "always" => Success(s)
    case _ => Failure(NotAFieldRequirement(s))
  }

  /** The fields submitted on create and update. */
  datatype CustomField = CustomField(
    name: string,
    description: string,
    required: FieldRequirement,
    showBeforeClosure: bool,
    showBeforeCreation: bool,
    fieldType: FieldType,
    options: seq<CustomFieldOptions.CustomFieldOption>)

  /** The submitted fields plus server-assigned metadata; the timestamps are opaque strings. */
  datatype CustomFieldMetadata = CustomFieldMetadata(fields: CustomField, id: string, createdAt: string, updatedAt: string)

  /** The response body, nesting the field under `custom_field`. */
  datatype CustomFieldResponse = CustomFieldResponse(customField: CustomFieldMetadata)

  const Kind := Policy.CustomFieldKind

  /** The path literals of this accessor are the table's paths. */
  lemma PathLiterals(id: string)
    ensures "/v1/custom_fields" == Policy.ResourcePath(Policy.Segment(Kind), Policy.Create, id)
    ensures "/v1/custom_fields/" + id == Policy.ResourcePath(Policy.Segment(Kind), Policy.Get, id)
  {
    assert "/v1/" + "custom_fields" == "/v1/custom_fields";
    assert "/v1/" + "custom_fields" + "/" == "/v1/custom_fields/";
  }

  function Get(c: Client, id: string, reply: Reply<CustomFieldResponse>): (r: Call<(), CustomFieldResponse>)
    ensures Policy.Follows(c, Kind, Policy.Get, id, None, reply, r)
  {
    if id == "" then Call(None, Failure(MissingId))
    else
      PathLiterals(id);
      var req := Issue(c, GET, "/v1/custom_fields/" + id, None);
      match reply
      case ConnectFailed => Call(Some(req), Failure(TransportFailed))
      case ReadFailed(_) => Call(Some(req), Failure(TransportFailed))
      case Received(status, body) =>
        if status != StatusOK then Call(Some(req), Failure(DecodeError(body)))
        else Call(Some(req), DecodeTarget(body))
  }

  /** The field type and requirement are sent as given: nothing here checks them. */
  function Create(c: Client, field: CustomField, reply: Reply<CustomFieldResponse>): (r: Call<CustomField, CustomFieldResponse>)
    ensures Policy.Follows(c, Kind, Policy.Create, "", Some(field), reply, r)
  {
    PathLiterals("");
    var req := Issue(c, POST, "/v1/custom_fields", Some(field));
    match reply
    case ConnectFailed => Call(Some(req), Failure(TransportFailed))
    case ReadFailed(_) => Call(Some(req), Failure(TransportFailed))
    case Received(status, body) =>
      if status != StatusCreated then Call(Some(req), Failure(DecodeError(body)))
      else Call(Some(req), DecodeTarget(body))
  }

  function Update(c: Client, id: string, field: CustomField, reply: Reply<CustomFieldResponse>): (r: Call<CustomField, CustomFieldResponse>)
    ensures Policy.Follows(c, Kind, Policy.Update, id, Some(field), reply, r)
  {
    PathLiterals(id);
    var req := Issue(c, PUT, "/v1/custom_fields/" + id, Some(field));
    match reply
    case ConnectFailed => Call(Some(req), Failure(TransportFailed))
    case ReadFailed(_) => Call(Some(req), Failure(TransportFailed))
    case Received(status, body) =>
      if status != StatusOK then Call(Some(req), Failure(DecodeError(body)))
      else Call(Some(req), DecodeTarget(body))
  }

  /** The source reads the response status even when no response came back, so a reply is required. */
  function Delete(c: Client, id: string, reply: Reply<()>): (r: Call<(), ()>)
    requires !reply.ConnectFailed?
    ensures Policy.Follows(c, Kind, Policy.Delete, id, None, reply, r)
  {
    PathLiterals(id);
    var req := Issue(c, DELETE, "/v1/custom_fields/" + id, None);
    if reply.status != StatusNoContent && reply.status != StatusNotFound then
      Call(Some(req), Failure(UnexpectedStatus(reply.status, RawOf(reply))))
    else if reply.ReadFailed? then
      Call(Some(req), Failure(TransportFailed))
    else
      Call(Some(req), Success(()))
  }

  /**
   The client does not validate enumerations: a field whose type is "number",
   which the parser refuses, is still sent, and a 201 reply makes it a success.
   */
  lemma {:induction false} CreateSendsUnparsedFieldType(c: Client, field: CustomField, body: Body<CustomFieldResponse>)
    requires field.fieldType == "number" && body.asTarget.Some?
    ensures ParseFieldType(field.fieldType).Failure?
    ensures Create(c, field, Received(StatusCreated, body)).sent.value.body == Some(field)
    ensures Create(c, field, Received(StatusCreated, body)).result.Success?
  {
  }
}
