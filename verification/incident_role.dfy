/** The incident role accessor (incidentio/incident_role.go). */
module IncidentRoles {
  import opened Wrappers
  import opened Api
  import Policy

  /** The fields submitted on create and update; `shortForm` is `shortform` on the wire. */
  datatype IncidentRole = IncidentRole(name: string, description: string, required: bool, instructions: string, shortForm: string)

  /** The submitted fields plus server-assigned metadata; `roleType` is never submitted. */
  datatype IncidentRoleMetadata = IncidentRoleMetadata(fields: IncidentRole, id: string, createdAt: string, updatedAt: string, roleType: string)

  /** The response body, nesting the role under `incident_role`. */
  datatype IncidentRoleResponse = IncidentRoleResponse(incidentRole: IncidentRoleMetadata)

  const Kind := Policy.IncidentRoleKind

  /** The path literals of this accessor are the table's paths. */
  lemma PathLiterals(id: string)
    ensures "/v1/incident_roles" == Policy.ResourcePath(Policy.Segment(Kind), Policy.Create, id)
    ensures "/v1/incident_roles/" + id == Policy.ResourcePath(Policy.Segment(Kind), Policy.Get, id)
  {
    assert "/v1/" + "incident_roles" == "/v1/incident_roles";
    assert "/v1/" + "incident_roles" + "/" == "/v1/incident_roles/";
  }

  /** Only a 404 is an error; any other status, success or not, has its body decoded as a role. */
  function Get(c: Client, id: string, reply: Reply<IncidentRoleResponse>): (r: Call<(), IncidentRoleResponse>)
    ensures Policy.Follows(c, Kind, Policy.Get, id, None, reply, r)
  {
    if id == "" then Call(None, Failure(MissingId))
    else
      PathLiterals(id);
      var req := Issue(c, GET, "/v1/incident_roles/" + id, None);
      match reply
      case ConnectFailed => Call(Some(req), Failure(TransportFailed))
      case ReadFailed(_) => Call(Some(req), Failure(TransportFailed))
      case Received(status, body) =>
        if status == StatusNotFound then Call(Some(req), Failure(UnexpectedStatus(status, body.raw)))
        else Call(Some(req), DecodeTarget(body))
  }

  /** A non-201 body is decoded as an API error; when that decoding fails its error is returned instead. */
  function Create(c: Client, role: IncidentRole, reply: Reply<IncidentRoleResponse>): (r: Call<IncidentRole, IncidentRoleResponse>)
    ensures Policy.Follows(c, Kind, Policy.Create, "", Some(role), reply, r)
  {
    PathLiterals("");
    var req := Issue(c, POST, "/v1/incident_roles", Some(role));
    match reply
    case ConnectFailed => Call(Some(req), Failure(TransportFailed))
    case ReadFailed(_) => Call(Some(req), Failure(TransportFailed))
    case Received(status, body) =>
      if status != StatusCreated then
        match body.asError
        case None => Call(Some(req), Failure(Undecodable))
        case Some(a) => Call(Some(req), Failure(Api(a)))
      else Call(Some(req), DecodeTarget(body))
  }

  /** The status is never inspected: every body that was read is decoded as a role. */
  function Update(c: Client, id: string, role: IncidentRole, reply: Reply<IncidentRoleResponse>): (r: Call<IncidentRole, IncidentRoleResponse>)
    ensures Policy.Follows(c, Kind, Policy.Update, id, Some(role), reply, r)
  {
    PathLiterals(id);
    var req := Issue(c, PUT, "/v1/incident_roles/" + id, Some(role));
    match reply
    case ConnectFailed => Call(Some(req), Failure(TransportFailed))
    case ReadFailed(_) => Call(Some(req), Failure(TransportFailed))
    case Received(_, body) => Call(Some(req), DecodeTarget(body))
  }

  /** The source reads the response status even when no response came back, so a reply is required. */
  function Delete(c: Client, id: string, reply: Reply<()>): (r: Call<(), ()>)
    requires !reply.ConnectFailed?
    ensures Policy.Follows(c, Kind, Policy.Delete, id, None, reply, r)
  {
    PathLiterals(id);
    var req := Issue(c, DELETE, "/v1/incident_roles/" + id, None);
    if reply.status != StatusNoContent && reply.status != StatusNotFound then
      Call(Some(req), Failure(UnexpectedStatus(reply.status, RawOf(reply))))
    else if reply.ReadFailed? then
      Call(Some(req), Failure(TransportFailed))
    else
      Call(Some(req), Success(()))
  }

  /**
   A server error whose body decodes into the role shape is read as a role:
   get returns success with whatever the error body decodes to.
   */
  lemma {:induction false} GetAcceptsServerError(c: Client, id: string, body: Body<IncidentRoleResponse>)
    requires id != "" && body.asTarget.Some?
    ensures Get(c, id, Received(500, body)).result == Success(body.asTarget.value)
  {
  }
}
