/** Routes of a team: a client's route with its ordered stops at the team's
    route points. A route is only visible through its own team, and removing
    it only marks it DELETED. This service has no Prisma-error decorator. */
module RouteService {
  import opened Common
  import opened Schema

  /** The status a new route gets (the create request carries none). */
  const DefaultRouteStatus: RouteStatus := RouteStatus.ACTIVE

  // ---- the point check of create ----

  /** The point exists and belongs to the team. */
  predicate OwnedPoint(points: map<Id, RoutePoint>, teamId: Id, id: Id) {
    id in points && points[id].teamId == teamId
  }

  /** The rows the point query returns: the distinct ids of the list that are
      points of the team. */
  function FoundPoints(points: map<Id, RoutePoint>, teamId: Id, ids: seq<Id>): set<Id> {
    set id | id in ids && OwnedPoint(points, teamId, id)
  }

  predicate Distinct(ids: seq<Id>) {
    forall i, j :: 0 <= i < j < |ids| ==> ids[i] != ids[j]
  }

  /** The query finds at most one row per listed id. */
  lemma {:induction false} FoundPointsBound(points: map<Id, RoutePoint>, teamId: Id, ids: seq<Id>)
    ensures |FoundPoints(points, teamId, ids)| <= |ids|
    ensures |FoundPoints(points, teamId, ids)| == |ids| <==>
              Distinct(ids) && forall i :: 0 <= i < |ids| ==> OwnedPoint(points, teamId, ids[i])
  {
    if ids == [] {
      assert FoundPoints(points, teamId, ids) == {};
    } else {
      var x, rest := ids[0], ids[1..];
      FoundPointsBound(points, teamId, rest);
      var found, foundRest := FoundPoints(points, teamId, ids), FoundPoints(points, teamId, rest);
      assert ids == [x] + rest;
      assert found == foundRest + (if OwnedPoint(points, teamId, x) then {x} else {});
      assert Distinct(ids) <==> x !in rest && Distinct(rest) by {
        if x in rest {
          var j :| 0 <= j < |rest| && rest[j] == x;
          assert ids[0] == ids[j + 1];
        }
        if Distinct(ids) {
          forall i, j | 0 <= i < j < |rest|
            ensures rest[i] != rest[j]
          {
            assert rest[i] == ids[i + 1] && rest[j] == ids[j + 1];
          }
        }
      }
      assert (forall i :: 0 <= i < |ids| ==> OwnedPoint(points, teamId, ids[i])) <==>
             OwnedPoint(points, teamId, x) && forall i :: 0 <= i < |rest| ==> OwnedPoint(points, teamId, rest[i]) by {
        if forall i :: 0 <= i < |ids| ==> OwnedPoint(points, teamId, ids[i]) {
          forall i | 0 <= i < |rest|
            ensures OwnedPoint(points, teamId, rest[i])
          {
            assert rest[i] == ids[i + 1];
          }
        }
      }
      if OwnedPoint(points, teamId, x) && x !in rest {
        assert x !in foundRest;
        assert |found| == |foundRest| + 1;
      } else {
        assert found == foundRest by {
          if OwnedPoint(points, teamId, x) {
            assert x in foundRest;
          }
        }
      }
    }
  }

  /** The point ids of a stop list. */
  function PointIds(stops: seq<Stop>): (ids: seq<Id>)
    ensures |ids| == |stops|
    ensures forall i :: 0 <= i < |stops| ==> ids[i] == stops[i].pointId
  {
    if stops == [] then [] else [stops[0].pointId] + PointIds(stops[1..])
  }

  /** The point check create makes: a non-empty stop list passes when the
      query finds as many points of the team as there are stops. */
  predicate PointsPass(points: map<Id, RoutePoint>, teamId: Id, stops: seq<Stop>) {
    stops == [] || |FoundPoints(points, teamId, PointIds(stops))| == |stops|
  }

  /** The point check accepts exactly the stop lists whose points are
      pairwise different points of the team. */
  lemma PointsPassMeans(points: map<Id, RoutePoint>, teamId: Id, stops: seq<Stop>)
    ensures PointsPass(points, teamId, stops) <==>
              (forall i :: 0 <= i < |stops| ==> OwnedPoint(points, teamId, stops[i].pointId)) &&
              (forall i, j :: 0 <= i < j < |stops| ==> stops[i].pointId != stops[j].pointId)
  {
    var ids := PointIds(stops);
    FoundPointsBound(points, teamId, ids);
    if stops == [] {
    } else {
      assert forall i :: 0 <= i < |stops| ==> ids[i] == stops[i].pointId;
    }
  }

  // ---- create ----

  datatype CreateRouteRequest = CreateRouteRequest(
    name: string, code: string, company: string, clientId: Id, stops: seq<Stop>)

  method Create(db: Db, teamId: Id, req: CreateRouteRequest) returns (r: Outcome<Id>)
    requires db.Valid()
    modifies db`routes, db`stops, db`nextId
    ensures db.Valid()
    ensures r.Ok? <==> old(req.clientId in db.clients && db.clients[req.clientId].teamId == teamId &&
                           PointsPass(db.points, teamId, req.stops))
    ensures r.Err? ==> r == Err(Plain) && db.routes == old(db.routes) && db.stops == old(db.stops)
    ensures r.Ok? ==> r.value !in old(db.routes)
    ensures r.Ok? ==> db.routes == old(db.routes)[r.value := Route(teamId, req.clientId, req.name, req.code, req.company, DefaultRouteStatus)]
    ensures r.Ok? ==> db.stops == old(db.stops)[r.value := req.stops]
  {
    if req.clientId !in db.clients || db.clients[req.clientId].teamId != teamId {
      return Err(Plain);
    }
    if |req.stops| > 0 {
      var found := FoundPoints(db.points, teamId, PointIds(req.stops));
      if |found| != |req.stops| {
        return Err(Plain);
      }
    }
    var id := db.NewId();
    db.routes := db.routes[id := Route(teamId, req.clientId, req.name, req.code, req.company, DefaultRouteStatus)];
    db.stops := db.stops[id := req.stops];
    r := Ok(id);
  }

  // ---- lookup ----

  /** The route, when it exists in that team. */
  function FindOne(routes: map<Id, Route>, id: Id, teamId: Id): (r: Outcome<Route>)
    ensures r.Ok? <==> id in routes && routes[id].teamId == teamId
    ensures r.Err? ==> r == Fail(NotFound)
    ensures r.Ok? ==> r.value == routes[id]
  {
    if id in routes && routes[id].teamId == teamId then Ok(routes[id]) else Fail(NotFound)
  }

  /** A team never sees another team's route, whatever its id. */
  lemma FindOneIsScoped(routes: map<Id, Route>, id: Id, teamId: Id, otherTeam: Id)
    requires id in routes && routes[id].teamId == teamId && otherTeam != teamId
    ensures FindOne(routes, id, otherTeam) == Fail(NotFound)
    ensures FindOne(routes, id, teamId).Ok?
  {
  }

  // ---- update ----

  /** The route fields update accepts; an absent one is left alone. */
  datatype RoutePatch = RoutePatch(
    name: Option<string>, code: Option<string>, company: Option<string>,
    clientId: Option<Id>, status: Option<RouteStatus>)

  function PatchedRoute(t: Route, p: RoutePatch): (u: Route)
    ensures u.teamId == t.teamId
    ensures u.name == (if p.name.Some? then p.name.value else t.name)
    ensures u.code == (if p.code.Some? then p.code.value else t.code)
    ensures u.company == (if p.company.Some? then p.company.value else t.company)
    ensures u.clientId == (if p.clientId.Some? then p.clientId.value else t.clientId)
    ensures u.status == (if p.status.Some? then p.status.value else t.status)
  {
    Route(t.teamId,
          if p.clientId.Some? then p.clientId.value else t.clientId,
          if p.name.Some? then p.name.value else t.name,
          if p.code.Some? then p.code.value else t.code,
          if p.company.Some? then p.company.value else t.company,
          if p.status.Some? then p.status.value else t.status)
  }

  /** Every row the update refers to exists (the database enforces only that). */
  predicate ReferencesExist(db: Db, patch: RoutePatch, stops: Option<seq<Stop>>)
    reads db
  {
    && (patch.clientId.Some? ==> patch.clientId.value in db.clients)
    && (stops.Some? ==> forall i :: 0 <= i < |stops.value| ==> stops.value[i].pointId in db.points)
  }

  /** Updates the route's fields and, when a stop list is given, replaces all
      of its stops with exactly that list, in one transaction. The response is
      read with the service's own client rather than the transaction's, so
      it does not see the transaction's writes: it is the route as it was
      before the update. */
  method Update(db: Db, id: Id, teamId: Id, patch: RoutePatch, stops: Option<seq<Stop>>) returns (r: Outcome<Route>)
    requires db.Valid()
    modifies db`routes, db`stops
    ensures db.Valid()
    ensures old(FindOne(db.routes, id, teamId)).Err? ==> r == Fail(NotFound)
    ensures old(FindOne(db.routes, id, teamId)).Ok? && old(!ReferencesExist(db, patch, stops)) ==> r == Err(Prisma(KnownRequest("P2003")))
    ensures r.Ok? <==> old(FindOne(db.routes, id, teamId)).Ok? && old(ReferencesExist(db, patch, stops))
    ensures r.Err? ==> db.routes == old(db.routes) && db.stops == old(db.stops)
    ensures r.Ok? ==> db.routes == old(db.routes)[id := PatchedRoute(old(db.routes[id]), patch)] && r.value == old(db.routes[id])
    ensures r.Ok? && stops.Some? ==> db.stops == old(db.stops)[id := stops.value]
    ensures r.Ok? && stops.None? ==> db.stops == old(db.stops)
  {
    var found := FindOne(db.routes, id, teamId);
    if found.Err? {
      return Fail(NotFound);
    }
    if !ReferencesExist(db, patch, stops) {
      // a missing client or point fails the transaction, which rolls back
      return Err(Prisma(KnownRequest("P2003")));
    }
    db.routes := db.routes[id := PatchedRoute(found.value, patch)];
    if stops.Some? {
      db.stops := db.stops[id := stops.value];
    }
    // the final lookup runs outside the uncommitted transaction
    r := found;
  }

  /** The response update evidently means to give: the route looked up
      through the transaction, after its writes. It is the patched route. */
  function FindOneInTransaction(routes: map<Id, Route>, id: Id, teamId: Id, patch: RoutePatch): (r: Outcome<Route>)
    requires FindOne(routes, id, teamId).Ok?
    ensures r == Ok(PatchedRoute(routes[id], patch))
  {
    FindOne(routes[id := PatchedRoute(routes[id], patch)], id, teamId)
  }

  /** As written, an update that renames a route answers with the old name,
      while the transactional lookup answers with the new one. */
  lemma UpdateRespondsWithOldRoute(routes: map<Id, Route>, id: Id, teamId: Id, patch: RoutePatch)
    requires FindOne(routes, id, teamId).Ok?
    requires patch.name.Some? && patch.name.value != routes[id].name
    ensures FindOne(routes, id, teamId).value != FindOneInTransaction(routes, id, teamId, patch).value
    ensures FindOneInTransaction(routes, id, teamId, patch).value.name == patch.name.value
  {
  }

  /** Update does not repeat the point check of create: a stop at a point of
      another team, which create rejects, is accepted by update. */
  lemma UpdateSkipsPointCheck()
    ensures
      var points := map[5 := RoutePoint(2, 0, 0, "p", RoutePointStatus.ACTIVE)];
      var stops := [Stop(5, 1)];
      !PointsPass(points, 1, stops) && forall i :: 0 <= i < |stops| ==> stops[i].pointId in points
  {
    var points := map[5 := RoutePoint(2, 0, 0, "p", RoutePointStatus.ACTIVE)];
    var stops := [Stop(5, 1)];
    assert PointIds(stops) == [5];
    assert FoundPoints(points, 1, [5]) == {} by {
      assert !OwnedPoint(points, 1, 5);
    }
  }

  method UpdateStatus(db: Db, id: Id, teamId: Id, status: RouteStatus) returns (r: Outcome<Route>)
    requires db.Valid()
    modifies db`routes
    ensures db.Valid()
    ensures r.Ok? <==> old(FindOne(db.routes, id, teamId)).Ok?
    ensures r.Err? ==> r == Fail(NotFound) && db.routes == old(db.routes)
    ensures r.Ok? ==> db.routes == old(db.routes)[id := old(db.routes[id]).(status := status)] && r.value == db.routes[id]
  {
    var found := FindOne(db.routes, id, teamId);
    if found.Err? {
      return Fail(NotFound);
    }
    db.routes := db.routes[id := found.value.(status := status)];
    r := Ok(db.routes[id]);
  }

  /** Soft delete: the route stays, with status DELETED, and keeps its stops. */
  method Remove(db: Db, id: Id, teamId: Id) returns (r: Outcome<Route>)
    requires db.Valid()
    modifies db`routes
    ensures db.Valid()
    ensures r.Ok? <==> old(FindOne(db.routes, id, teamId)).Ok?
    ensures r.Err? ==> r == Fail(NotFound) && db.routes == old(db.routes)
    ensures r.Ok? ==> db.routes == old(db.routes)[id := old(db.routes[id]).(status := RouteStatus.DELETED)]
    ensures r.Ok? ==> db.routes.Keys == old(db.routes.Keys) && r.value == db.routes[id]
  {
    var found := FindOne(db.routes, id, teamId);
    if found.Err? {
      return Fail(NotFound);
    }
    db.routes := db.routes[id := found.value.(status := RouteStatus.DELETED)];
    r := Ok(db.routes[id]);
  }
}
