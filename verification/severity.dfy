/** The severity accessor (incidentio/severity.go). */
module Severities {
  import opened Wrappers
  import opened Api
  import opened TfTypes
  import Policy

  /** The fields submitted on create and update; a lower rank is less severe. */
  datatype Severity = Severity(name: string, description: string, rank: Int64)

  /** The submitted fields plus server-assigned metadata. */
  datatype SeverityMetadata = SeverityMetadata(fields: Severity, id: string, createdAt: string, updatedAt: string)

  /** The response body, nesting the severity under `severity`. */
  datatype SeverityResponse = SeverityResponse(severity: SeverityMetadata)

  const Kind := Policy.SeverityKind

  /** The path literals of this accessor are the table's paths. */
  lemma PathLiterals(id: string)
    ensures "/v1/severities" == Policy.ResourcePath(Policy.Segment(Kind), Policy.Create, id)
    ensures "/v1/severities/" + id == Policy.ResourcePath(Policy.Segment(Kind), Policy.Get, id)
  {
    assert "/v1/" + "severities" == "/v1/severities";
    assert "/v1/" + "severities" + "/" == "/v1/severities/";
  }

  /** Only a 404 is an error; any other status has its body decoded as a severity. */
  function Get(c: Client, id: string, reply: Reply<SeverityResponse>): (r: Call<(), SeverityResponse>)
    ensures Policy.Follows(c, Kind, Policy.Get, id, None, reply, r)
  {
    if id == "" then Call(None, Failure(MissingId))
    else
      PathLiterals(id);
      var req := Issue(c, GET, "/v1/severities/" + id, None);
      match reply
      case ConnectFailed => Call(Some(req), Failure(TransportFailed))
      case ReadFailed(_) => Call(Some(req), Failure(TransportFailed))
      case Received(status, body) =>
        if status == StatusNotFound then Call(Some(req), Failure(UnexpectedStatus(status, body.raw)))
        else Call(Some(req), DecodeTarget(body))
  }

  function Create(c: Client, severity: Severity, reply: Reply<SeverityResponse>): (r: Call<Severity, SeverityResponse>)
    ensures Policy.Follows(c, Kind, Policy.Create, "", Some(severity), reply, r)
  {
    PathLiterals("");
    var req := Issue(c, POST, "/v1/severities", Some(severity));
    match reply
    case ConnectFailed => Call(Some(req), Failure(TransportFailed))
    case ReadFailed(_) => Call(Some(req), Failure(TransportFailed))
    case Received(status, body) =>
      if status != StatusCreated then Call(Some(req), Failure(DecodeError(body)))
      else Call(Some(req), DecodeTarget(body))
  }

  function Update(c: Client, id: string, severity: Severity, reply: Reply<SeverityResponse>): (r: Call<Severity, SeverityResponse>)
    ensures Policy.Follows(c, Kind, Policy.Update, id, Some(severity), reply, r)
  {
    PathLiterals(id);
    var req := Issue(c, PUT, "/v1/severities/" + id, Some(severity));
    match reply
    case ConnectFailed => Call(Some(req), Failure(TransportFailed))
    case ReadFailed(_) => Call(Some(req), Failure(TransportFailed))
    case Received(status, body) =>
      if status != StatusOK then Call(Some(req), Failure(DecodeError(body)))
      else Call(Some(req), DecodeTarget(body))
  }

  /**
   Severities confirm deletion with 202 rather than 204. The source reads the
   response status even when no response came back, so a reply is required.
   */
  function Delete(c: Client, id: string, reply: Reply<()>): (r: Call<(), ()>)
    requires !reply.ConnectFailed?
    ensures Policy.Follows(c, Kind, Policy.Delete, id, None, reply, r)
  {
    PathLiterals(id);
    var req := Issue(c, DELETE, "/v1/severities/" + id, None);
    if reply.status != StatusAccepted && reply.status != StatusNotFound then
      Call(Some(req), Failure(UnexpectedStatus(reply.status, RawOf(reply))))
    else if reply.ReadFailed? then
      Call(Some(req), Failure(TransportFailed))
    else
      Call(Some(req), Success(()))
  }

  /** A 202 deletes a severity, while the 204 every other kind answers with is an error. */
  lemma {:induction false} DeleteAcceptsOnlyAccepted(c: Client, id: string, body: Body<()>)
    ensures Delete(c, id, Received(StatusAccepted, body)).result.Success?
    ensures Delete(c, id, Received(StatusNoContent, body)).result == Failure(UnexpectedStatus(StatusNoContent, body.raw))
  {
  }
}
