/** The custom field option accessor (incidentio/custom_field_option.go). */
module CustomFieldOptions {
  import opened Wrappers
  import opened Api
  import opened TfTypes
  import Policy

  /** The fields submitted on create and update. */
  datatype CustomFieldOption = CustomFieldOption(customFieldId: string, sortKey: Int64, value: string)

  /** The submitted fields plus the server-assigned id. */
  datatype CustomFieldOptionMetadata = CustomFieldOptionMetadata(fields: CustomFieldOption, id: string)

  /** The response body, nesting the option under `custom_field_option`. */
  datatype CustomFieldOptionResponse = CustomFieldOptionResponse(customFieldOption: CustomFieldOptionMetadata)

  const Kind := Policy.CustomFieldOptionKind

  /** The path literals of this accessor are the table's paths. */
  lemma PathLiterals(id: string)
    ensures "/v1/custom_field_options" == Policy.ResourcePath(Policy.Segment(Kind), Policy.Create, id)
    ensures "/v1/custom_field_options/" + id == Policy.ResourcePath(Policy.Segment(Kind), Policy.Get, id)
  {
    assert "/v1/" + "custom_field_options" == "/v1/custom_field_options";
    assert "/v1/" + "custom_field_options" + "/" == "/v1/custom_field_options/";
  }

  function Get(c: Client, id: string, reply: Reply<CustomFieldOptionResponse>): (r: Call<(), CustomFieldOptionResponse>)
    ensures Policy.Follows(c, Kind, Policy.Get, id, None, reply, r)
  {
    if id == "" then Call(None, Failure(MissingId))
    else
      PathLiterals(id);
      var req := Issue(c, GET, "/v1/custom_field_options/" + id, None);
      match reply
      case ConnectFailed => Call(Some(req), Failure(TransportFailed))
      case ReadFailed(_) => Call(Some(req), Failure(TransportFailed))
      case Received(status, body) =>
        if status != StatusOK then Call(Some(req), Failure(DecodeError(body)))
        else Call(Some(req), DecodeTarget(body))
  }

  function Create(c: Client, option: CustomFieldOption, reply: Reply<CustomFieldOptionResponse>): (r: Call<CustomFieldOption, CustomFieldOptionResponse>)
    ensures Policy.Follows(c, Kind, Policy.Create, "", Some(option), reply, r)
  {
    PathLiterals("");
    var req := Issue(c, POST, "/v1/custom_field_options", Some(option));
    match reply
    case ConnectFailed => Call(Some(req), Failure(TransportFailed))
    case ReadFailed(_) => Call(Some(req), Failure(TransportFailed))
    case Received(status, body) =>
      if status != StatusCreated then Call(Some(req), Failure(DecodeError(body)))
      else Call(Some(req), DecodeTarget(body))
  }

  function Update(c: Client, id: string, option: CustomFieldOption, reply: Reply<CustomFieldOptionResponse>): (r: Call<CustomFieldOption, CustomFieldOptionResponse>)
    ensures Policy.Follows(c, Kind, Policy.Update, id, Some(option), reply, r)
  {
    PathLiterals(id);
    var req := Issue(c, PUT, "/v1/custom_field_options/" + id, Some(option));
    match reply
    case ConnectFailed => Call(Some(req), Failure(TransportFailed))
    case ReadFailed(_) => Call(Some(req), Failure(TransportFailed))
    case Received(status, body) =>
      if status != StatusOK then Call(Some(req), Failure(DecodeError(body)))
      else Call(Some(req), DecodeTarget(body))
  }

  /** The source reads the response status even when no response came back, so a reply is required. */
  function Delete(c: Client, id: string, reply: Reply<()>): (r: Call<(), ()>)
    requires !reply.ConnectFailed?
    ensures Policy.Follows(c, Kind, Policy.Delete, id, None, reply, r)
  {
    PathLiterals(id);
    var req := Issue(c, DELETE, "/v1/custom_field_options/" + id, None);
    if reply.status != StatusNoContent && reply.status != StatusNotFound then
      Call(Some(req), Failure(UnexpectedStatus(reply.status, RawOf(reply))))
    else if reply.ReadFailed? then
      Call(Some(req), Failure(TransportFailed))
    else
      Call(Some(req), Success(()))
  }
}
