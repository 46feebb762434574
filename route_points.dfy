/** Route points of a team: created ACTIVE unless told otherwise, visible only
    through their own team, and removed by marking them DELETED. */
module RoutePointService {
  import opened Common
  import opened Schema

  datatype CreatePointRequest = CreatePointRequest(
    name: string, addressId: Id, clientId: Id, status: Option<RoutePointStatus>)

  /** The status a new point gets: the requested one, else ACTIVE. */
  function InitialPointStatus(requested: Option<RoutePointStatus>): (s: RoutePointStatus)
    ensures requested.Some? ==> s == requested.value
    ensures requested.None? ==> s == RoutePointStatus.ACTIVE
  {
    match requested
    case Some(st) => st
    case None => RoutePointStatus.ACTIVE
  }

  method Create(db: Db, teamId: Id, req: CreatePointRequest) returns (id: Id)
    requires db.Valid()
    modifies db`points, db`nextId
    ensures db.Valid()
    ensures id !in old(db.points)
    ensures db.points == old(db.points)[id := RoutePoint(teamId, req.clientId, req.addressId, req.name, InitialPointStatus(req.status))]
  {
    id := db.NewId();
    db.points := db.points[id := RoutePoint(teamId, req.clientId, req.addressId, req.name, InitialPointStatus(req.status))];
  }

  /** The point, when it exists in that team. */
  function FindOne(points: map<Id, RoutePoint>, id: Id, teamId: Id): (r: Outcome<RoutePoint>)
    ensures r.Ok? <==> id in points && points[id].teamId == teamId
    ensures r.Err? ==> r == Fail(NotFound)
    ensures r.Ok? ==> r.value == points[id]
  {
    if id in points && points[id].teamId == teamId then Ok(points[id]) else Fail(NotFound)
  }

  /** The one status write behind update, updateStatus and remove: after the
      lookup in the team, set the status (an absent one leaves the point as it is). */
  method SetStatus(db: Db, id: Id, teamId: Id, status: Option<RoutePointStatus>) returns (r: Outcome<RoutePoint>)
    requires db.Valid()
    modifies db`points
    ensures db.Valid()
    ensures r.Ok? <==> old(FindOne(db.points, id, teamId)).Ok?
    ensures r.Err? ==> r == Fail(NotFound) && db.points == old(db.points)
    ensures r.Ok? && status.Some? ==> db.points == old(db.points)[id := old(db.points[id]).(status := status.value)]
    ensures r.Ok? && status.None? ==> db.points == old(db.points)
    ensures r.Ok? ==> r.value == db.points[id] && db.points.Keys == old(db.points.Keys)
  {
    var found := FindOne(db.points, id, teamId);
    if found.Err? {
      return Fail(NotFound);
    }
    if status.Some? {
      db.points := db.points[id := found.value.(status := status.value)];
    }
    r := Ok(db.points[id]);
  }

  /** update: the only field it accepts is an optional status. */
  method Update(db: Db, id: Id, teamId: Id, status: Option<RoutePointStatus>) returns (r: Outcome<RoutePoint>)
    requires db.Valid()
    modifies db`points
    ensures db.Valid()
    ensures r.Ok? <==> old(FindOne(db.points, id, teamId)).Ok?
    ensures r.Err? ==> r == Fail(NotFound) && db.points == old(db.points)
    ensures r.Ok? && status.Some? ==> db.points == old(db.points)[id := old(db.points[id]).(status := status.value)]
    ensures r.Ok? && status.None? ==> db.points == old(db.points)
  {
    r := SetStatus(db, id, teamId, status);
  }

  method UpdateStatus(db: Db, id: Id, teamId: Id, status: RoutePointStatus) returns (r: Outcome<RoutePoint>)
    requires db.Valid()
    modifies db`points
    ensures db.Valid()
    ensures r.Ok? <==> old(FindOne(db.points, id, teamId)).Ok?
    ensures r.Err? ==> r == Fail(NotFound) && db.points == old(db.points)
    ensures r.Ok? ==> db.points == old(db.points)[id := old(db.points[id]).(status := status)]
  {
    r := SetStatus(db, id, teamId, Some(status));
  }

  /** Soft delete: the point stays, with status DELETED. */
  method Remove(db: Db, id: Id, teamId: Id) returns (r: Outcome<RoutePoint>)
    requires db.Valid()
    modifies db`points
    ensures db.Valid()
    ensures r.Ok? <==> old(FindOne(db.points, id, teamId)).Ok?
    ensures r.Err? ==> r == Fail(NotFound) && db.points == old(db.points)
    ensures r.Ok? ==> db.points == old(db.points)[id := old(db.points[id]).(status := RoutePointStatus.DELETED)]
    ensures r.Ok? ==> db.points.Keys == old(db.points.Keys)
  {
    r := SetStatus(db, id, teamId, Some(RoutePointStatus.DELETED));
  }

  /** A point of one team is invisible to every other team, and a call
      through another team changes nothing. */
  lemma FindOneIsScoped(points: map<Id, RoutePoint>, id: Id, teamId: Id, otherTeam: Id)
    requires id in points && points[id].teamId == teamId && otherTeam != teamId
    ensures FindOne(points, id, otherTeam) == Fail(NotFound)
    ensures FindOne(points, id, teamId) == Ok(points[id])
  {
  }
}
