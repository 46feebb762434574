/** Trips and the reservation of their driver and vehicle: creating a trip
    books both, finishing or cancelling it releases both. */
module TripService {
  import opened Common
  import opened Schema
  import InvoiceService

  /** A trip that has not ended: it should hold its driver and vehicle. */
  predicate IsActive(s: TripStatus) {
    s == NO_INICIADO || s == EN_PROCESO
  }

  /** The statuses whose arrival releases the driver and the vehicle. */
  predicate IsTerminal(s: TripStatus) {
    s == FINALIZADO_A_TIEMPO || s == FINALIZADO_CON_RETRASO || s == TripStatus.CANCELADO
  }

  /** The status a new trip starts in. */
  function InitialStatus(startDate: Timestamp, now: Timestamp): (s: TripStatus)
    ensures IsActive(s)
    ensures s == EN_PROCESO <==> startDate <= now
    ensures s == NO_INICIADO <==> now < startDate
  {
    if startDate <= now then EN_PROCESO else NO_INICIADO
  }

  /** The status names a client may send; anything else is not a status. */
  function ParseTripStatus(s: string): (r: Option<TripStatus>)
    ensures r.Some? ==> s == StatusName(r.value)
  {
    match s
    case "NO_INICIADO" => Some(NO_INICIADO)
    case "EN_PROCESO" => Some(EN_PROCESO)
    case "FINALIZADO_A_TIEMPO" => Some(FINALIZADO_A_TIEMPO)
    case "FINALIZADO_CON_RETRASO" => Some(FINALIZADO_CON_RETRASO)
    case "CANCELADO" => Some(TripStatus.CANCELADO)
    case _ => None
  }

  function StatusName(s: TripStatus): string {
    match s
    case NO_INICIADO => "NO_INICIADO"
    case EN_PROCESO => "EN_PROCESO"
    case FINALIZADO_A_TIEMPO => "FINALIZADO_A_TIEMPO"
    case FINALIZADO_CON_RETRASO => "FINALIZADO_CON_RETRASO"
    case CANCELADO => "CANCELADO"
  }

  /** Every status name is read back as that status. */
  lemma ParseStatusName(s: TripStatus)
    ensures ParseTripStatus(StatusName(s)) == Some(s)
  {
  }

  // ---- the part of the database a trip reserves and releases ----

  datatype Fleet = Fleet(trips: map<Id, Trip>, drivers: map<Id, Driver>, vehicles: map<Id, Vehicle>)

  ghost function FleetOf(db: Db): Fleet
    reads db
  {
    Fleet(db.trips, db.drivers, db.vehicles)
  }

  /** The trip holds its driver and its vehicle. */
  ghost predicate Holds(f: Fleet, t: Trip) {
    && t.driverId in f.drivers && f.drivers[t.driverId].status == DriverStatus.EN_VIAJE
    && t.vehicleId in f.vehicles && f.vehicles[t.vehicleId].status == VehicleStatus.EN_USO
  }

  /** The reservation invariant: every trip that has not ended holds its
      driver and vehicle, and no two such trips share either. */
  ghost predicate Safe(f: Fleet) {
    && (forall id :: id in f.trips && IsActive(f.trips[id].status) ==> Holds(f, f.trips[id]))
    && (forall a, b ::
          (a in f.trips && b in f.trips && a != b &&
           IsActive(f.trips[a].status) && IsActive(f.trips[b].status)) ==>
          f.trips[a].driverId != f.trips[b].driverId && f.trips[a].vehicleId != f.trips[b].vehicleId)
  }

  /** The writes of a successful create: the trip, its driver EN_VIAJE, its vehicle EN_USO. */
  function Book(f: Fleet, id: Id, t: Trip): (g: Fleet)
    requires t.driverId in f.drivers && t.vehicleId in f.vehicles
    ensures g.trips.Keys == f.trips.Keys + {id} && g.trips[id] == t
    ensures forall k :: k in f.trips && k != id ==> g.trips[k] == f.trips[k]
    ensures Holds(g, t)
    ensures g.drivers.Keys == f.drivers.Keys && g.vehicles.Keys == f.vehicles.Keys
    ensures forall d :: d in f.drivers && d != t.driverId ==> g.drivers[d] == f.drivers[d]
    ensures forall v :: v in f.vehicles && v != t.vehicleId ==> g.vehicles[v] == f.vehicles[v]
  {
    Fleet(f.trips[id := t],
          f.drivers[t.driverId := f.drivers[t.driverId].(status := DriverStatus.EN_VIAJE)],
          f.vehicles[t.vehicleId := f.vehicles[t.vehicleId].(status := VehicleStatus.EN_USO)])
  }

  /** The writes of a releasing status change: the trip's new status, its
      driver and its vehicle DISPONIBLE. */
  function Release(f: Fleet, id: Id, s: TripStatus): (g: Fleet)
    requires id in f.trips && f.trips[id].driverId in f.drivers && f.trips[id].vehicleId in f.vehicles
    ensures g.trips.Keys == f.trips.Keys && g.trips[id] == f.trips[id].(status := s)
    ensures forall k :: k in f.trips && k != id ==> g.trips[k] == f.trips[k]
    ensures g.drivers.Keys == f.drivers.Keys && g.vehicles.Keys == f.vehicles.Keys
    ensures g.drivers[f.trips[id].driverId].status == DriverStatus.DISPONIBLE
    ensures g.vehicles[f.trips[id].vehicleId].status == VehicleStatus.DISPONIBLE
    ensures forall d :: d in f.drivers && d != f.trips[id].driverId ==> g.drivers[d] == f.drivers[d]
    ensures forall v :: v in f.vehicles && v != f.trips[id].vehicleId ==> g.vehicles[v] == f.vehicles[v]
  {
    var t := f.trips[id];
    Fleet(f.trips[id := t.(status := s)],
          f.drivers[t.driverId := f.drivers[t.driverId].(status := DriverStatus.DISPONIBLE)],
          f.vehicles[t.vehicleId := f.vehicles[t.vehicleId].(status := VehicleStatus.DISPONIBLE)])
  }

  /** The write of a plain status change: the trip's status alone. */
  function SetStatus(f: Fleet, id: Id, s: TripStatus): (g: Fleet)
    requires id in f.trips
    ensures g.drivers == f.drivers && g.vehicles == f.vehicles
    ensures g.trips.Keys == f.trips.Keys && g.trips[id] == f.trips[id].(status := s)
    ensures forall k :: k in f.trips && k != id ==> g.trips[k] == f.trips[k]
  {
    f.(trips := f.trips[id := f.trips[id].(status := s)])
  }

  /** Booking an available driver and vehicle for a new active trip keeps the
      reservation invariant. */
  lemma BookKeepsSafe(f: Fleet, id: Id, t: Trip)
    requires Safe(f) && id !in f.trips && IsActive(t.status)
    requires t.driverId in f.drivers && f.drivers[t.driverId].status == DriverStatus.DISPONIBLE
    requires t.vehicleId in f.vehicles && f.vehicles[t.vehicleId].status == VehicleStatus.DISPONIBLE
    ensures Safe(Book(f, id, t))
  {
    var g := Book(f, id, t);
    forall k | k in f.trips && IsActive(f.trips[k].status)
      ensures f.trips[k].driverId != t.driverId && f.trips[k].vehicleId != t.vehicleId
    {
      assert Holds(f, f.trips[k]);
    }
    forall k | k in g.trips && IsActive(g.trips[k].status)
      ensures Holds(g, g.trips[k])
    {
      if k != id {
        assert Holds(f, f.trips[k]);
      }
    }
  }

  /** Releasing the resources of a trip that has not ended, while ending it,
      keeps the reservation invariant. */
  lemma ReleaseActiveKeepsSafe(f: Fleet, id: Id, s: TripStatus)
    requires Safe(f) && id in f.trips && IsActive(f.trips[id].status) && IsTerminal(s)
    requires f.trips[id].driverId in f.drivers && f.trips[id].vehicleId in f.vehicles
    ensures Safe(Release(f, id, s))
  {
    var g := Release(f, id, s);
    var t := f.trips[id];
    forall k | k in g.trips && IsActive(g.trips[k].status)
      ensures Holds(g, g.trips[k])
    {
      assert k != id;
      assert f.trips[k].driverId != t.driverId && f.trips[k].vehicleId != t.vehicleId;
      assert Holds(f, f.trips[k]);
    }
  }

  /** A plain status change keeps the invariant unless it brings a trip that
      has ended back into an active status. */
  lemma SetStatusKeepsSafe(f: Fleet, id: Id, s: TripStatus)
    requires Safe(f) && id in f.trips
    requires IsActive(s) ==> IsActive(f.trips[id].status)
    ensures Safe(SetStatus(f, id, s))
  {
    var g := SetStatus(f, id, s);
    forall k | k in g.trips && IsActive(g.trips[k].status)
      ensures Holds(g, g.trips[k])
    {
      assert Holds(f, f.trips[k]);
    }
  }

  /** Cancelling a trip twice leaves the same trips, drivers and vehicles as
      cancelling it once. */
  lemma ReleaseTwiceIsReleaseOnce(f: Fleet, id: Id, s: TripStatus)
    requires id in f.trips && f.trips[id].driverId in f.drivers && f.trips[id].vehicleId in f.vehicles
    ensures var g := Release(f, id, s); Release(g, id, s) == g
    ensures Release(f, id, s).trips.Keys == f.trips.Keys
    ensures Release(f, id, s).trips[id].status == s
  {
  }

  /** Releasing is not guarded by the trip's current status: cancel a trip,
      book its driver and vehicle for a second trip, cancel the first trip
      again, and the second trip is active with a DISPONIBLE driver and
      vehicle (both can then be booked twice). */
  lemma CancellingEndedTripReleasesOthers()
    ensures
      var d, v := Driver(0, "d", DriverStatus.EN_VIAJE), Vehicle(0, "v", VehicleStatus.EN_USO);
      var t1 := Trip(0, 0, 7, 8, 0, 1.0, 0, 1, None, [], EN_PROCESO);
      var t2 := t1.(startDate := 5, endDate := 6);
      var f0 := Fleet(map[1 := t1], map[7 := d], map[8 := v]);
      var f1 := Release(f0, 1, TripStatus.CANCELADO);
      var f2 := Book(f1, 2, t2);
      var f3 := Release(f2, 1, TripStatus.CANCELADO);
      Safe(f0) && Safe(f1) && Safe(f2) && !Safe(f3)
  {
    var d, v := Driver(0, "d", DriverStatus.EN_VIAJE), Vehicle(0, "v", VehicleStatus.EN_USO);
    var t1 := Trip(0, 0, 7, 8, 0, 1.0, 0, 1, None, [], EN_PROCESO);
    var t2 := t1.(startDate := 5, endDate := 6);
    var f0 := Fleet(map[1 := t1], map[7 := d], map[8 := v]);
    assert Safe(f0) by {
      assert Holds(f0, f0.trips[1]);
    }
    ReleaseActiveKeepsSafe(f0, 1, TripStatus.CANCELADO);
    var f1 := Release(f0, 1, TripStatus.CANCELADO);
    BookKeepsSafe(f1, 2, t2);
    var f2 := Book(f1, 2, t2);
    var f3 := Release(f2, 1, TripStatus.CANCELADO);
    assert f3.trips[2] == t2 && f3.drivers[7].status == DriverStatus.DISPONIBLE;
    assert !Holds(f3, f3.trips[2]);
  }

  /** A plain status change back to an active status does not book anything:
      a cancelled trip set back to EN_PROCESO is active while its driver and
      vehicle stay DISPONIBLE. */
  lemma ReopeningDoesNotRebook()
    ensures
      var t := Trip(0, 0, 7, 8, 0, 1.0, 0, 1, None, [], TripStatus.CANCELADO);
      var f := Fleet(map[1 := t], map[7 := Driver(0, "d", DriverStatus.DISPONIBLE)],
                     map[8 := Vehicle(0, "v", VehicleStatus.DISPONIBLE)]);
      Safe(f) && !Safe(SetStatus(f, 1, EN_PROCESO))
  {
    var t := Trip(0, 0, 7, 8, 0, 1.0, 0, 1, None, [], TripStatus.CANCELADO);
    var f := Fleet(map[1 := t], map[7 := Driver(0, "d", DriverStatus.DISPONIBLE)],
                   map[8 := Vehicle(0, "v", VehicleStatus.DISPONIBLE)]);
    var g := SetStatus(f, 1, EN_PROCESO);
    assert !Holds(g, g.trips[1]);
  }

  // ---- create ----

  datatype CreateTripRequest = CreateTripRequest(
    teamId: Id, clientId: Id, driverId: Id, vehicleId: Id, routeId: Id,
    price: real, startDate: Timestamp, endDate: Timestamp,
    notes: Option<string>, cargos: Option<seq<Cargo>>)

  /** The trip a request creates at time `now`. */
  function NewTrip(req: CreateTripRequest, now: Timestamp): (t: Trip)
    ensures t.teamId == req.teamId && t.clientId == req.clientId && t.driverId == req.driverId
    ensures t.vehicleId == req.vehicleId && t.routeId == req.routeId && t.price == req.price
    ensures t.startDate == req.startDate && t.endDate == req.endDate && t.notes == req.notes
    ensures t.cargos == (if req.cargos.Some? then req.cargos.value else [])
    ensures t.status == InitialStatus(req.startDate, now)
  {
    Trip(req.teamId, req.clientId, req.driverId, req.vehicleId, req.routeId,
         req.price, req.startDate, req.endDate, req.notes,
         match req.cargos case Some(cs) => cs case None => [],
         InitialStatus(req.startDate, now))
  }

  /** Everything create checks before writing: the actor is a member of the
      team, the client, driver, vehicle and route exist in that team, and the
      driver and vehicle are DISPONIBLE. */
  predicate CanCreate(members: map<MemberKey, Role>, clients: map<Id, Client>, drivers: map<Id, Driver>,
                      vehicles: map<Id, Vehicle>, routes: map<Id, Route>, req: CreateTripRequest, actor: Id)
  {
    && MemberKey(actor, req.teamId) in members
    && req.clientId in clients && clients[req.clientId].teamId == req.teamId
    && req.driverId in drivers && drivers[req.driverId].teamId == req.teamId
    && req.vehicleId in vehicles && vehicles[req.vehicleId].teamId == req.teamId
    && req.routeId in routes && routes[req.routeId].teamId == req.teamId
    && drivers[req.driverId].status == DriverStatus.DISPONIBLE
    && vehicles[req.vehicleId].status == VehicleStatus.DISPONIBLE
  }

  /** The transaction of create: insert the trip, mark its driver EN_VIAJE
      and its vehicle EN_USO. */
  method BookTrip(db: Db, trip: Trip) returns (id: Id)
    requires db.Valid() && trip.driverId in db.drivers && trip.vehicleId in db.vehicles
    modifies db`trips, db`drivers, db`vehicles, db`nextId
    ensures db.Valid()
    ensures id !in old(db.trips) && id !in db.invoices && id == old(db.nextId)
    ensures FleetOf(db) == Book(old(FleetOf(db)), id, trip)
  {
    id := db.NewId();
    db.trips := db.trips[id := trip];
    db.drivers := db.drivers[trip.driverId := db.drivers[trip.driverId].(status := DriverStatus.EN_VIAJE)];
    db.vehicles := db.vehicles[trip.vehicleId := db.vehicles[trip.vehicleId].(status := VehicleStatus.EN_USO)];
  }

  method Create(db: Db, req: CreateTripRequest, actor: Id, now: Timestamp) returns (r: Outcome<Id>)
    requires db.Valid()
    modifies db`trips, db`drivers, db`vehicles, db`invoices, db`nextId
    ensures db.Valid()
    ensures r.Ok? <==> old(CanCreate(db.members, db.clients, db.drivers, db.vehicles, db.routes, req, actor))
    ensures r.Err? ==> r == Fail(BadRequest) && FleetOf(db) == old(FleetOf(db)) && db.invoices == old(db.invoices)
    ensures r.Ok? ==> r.value !in old(db.trips) && FleetOf(db) == Book(old(FleetOf(db)), r.value, NewTrip(req, now))
    ensures r.Ok? ==> exists i: Id :: i !in old(db.invoices) &&
                       db.invoices == old(db.invoices)[i := InvoiceService.Draft(r.value, NewTrip(req, now))]
  {
    // membership, then the four resources in the team, then availability:
    // every failed check throws the same BadRequest before anything is written
    if !CanCreate(db.members, db.clients, db.drivers, db.vehicles, db.routes, req, actor) {
      return Fail(BadRequest);
    }
    var trip := NewTrip(req, now);
    var id := BookTrip(db, trip);
    // the invoice is created after the trip; a failure would only be logged
    assert !InvoiceService.HasInvoice(db.invoices, id);
    var invoice := InvoiceService.CreateFromTrip(db, id);
    r := Ok(id);
  }

  // ---- status changes ----

  /** The trip exists and the actor is a member of its team. */
  predicate Visible(db: Db, id: Id, actor: Id)
    reads db
  {
    id in db.trips && MemberKey(actor, db.trips[id].teamId) in db.members
  }

  method UpdateStatus(db: Db, id: Id, status: string, actor: Id) returns (r: Outcome<()>)
    requires db.Valid()
    modifies db`trips, db`drivers, db`vehicles
    ensures db.Valid()
    ensures old(!Visible(db, id, actor)) ==> r == Fail(NotFound)
    ensures old(Visible(db, id, actor)) && ParseTripStatus(status).None? ==> r == Err(Prisma(Validation))
    ensures r.Ok? <==> old(Visible(db, id, actor)) && ParseTripStatus(status).Some?
    ensures r.Err? ==> FleetOf(db) == old(FleetOf(db))
    ensures r.Ok? ==>
      var s := ParseTripStatus(status).value;
      FleetOf(db) == if IsTerminal(s) && s != old(db.trips[id].status)
                     then Release(old(FleetOf(db)), id, s)
                     else SetStatus(old(FleetOf(db)), id, s)
  {
    if !Visible(db, id, actor) {
      return Fail(NotFound);
    }
    var trip := db.trips[id];
    var parsed := ParseTripStatus(status);
    if parsed.Some? && IsTerminal(parsed.value) && trip.status != parsed.value {
      db.trips := db.trips[id := trip.(status := parsed.value)];
      db.drivers := db.drivers[trip.driverId := db.drivers[trip.driverId].(status := DriverStatus.DISPONIBLE)];
      db.vehicles := db.vehicles[trip.vehicleId := db.vehicles[trip.vehicleId].(status := VehicleStatus.DISPONIBLE)];
    } else {
      if parsed.None? {
        // the database rejects a value outside the enum
        return Err(Prisma(Validation));
      }
      db.trips := db.trips[id := trip.(status := parsed.value)];
    }
    r := Ok(());
  }

  method Remove(db: Db, id: Id, actor: Id) returns (r: Outcome<()>)
    requires db.Valid()
    modifies db`trips, db`drivers, db`vehicles
    ensures db.Valid()
    ensures r.Ok? <==> old(Visible(db, id, actor))
    ensures r.Err? ==> r == Fail(NotFound) && FleetOf(db) == old(FleetOf(db))
    ensures r.Ok? ==> FleetOf(db) == Release(old(FleetOf(db)), id, TripStatus.CANCELADO)
  {
    if !Visible(db, id, actor) {
      return Fail(NotFound);
    }
    var trip := db.trips[id];
    db.trips := db.trips[id := trip.(status := TripStatus.CANCELADO)];
    db.drivers := db.drivers[trip.driverId := db.drivers[trip.driverId].(status := DriverStatus.DISPONIBLE)];
    db.vehicles := db.vehicles[trip.vehicleId := db.vehicles[trip.vehicleId].(status := VehicleStatus.DISPONIBLE)];
    r := Ok(());
  }

  // ---- editing ----

  /** The fields update accepts. `notes` is `None` when the field is absent
      (left alone), `Some(None)` when it is null (the notes are cleared) and
      `Some(Some(text))` when it is given. `cargos` is `None` when absent or
      null (left alone); a given list replaces every cargo of the trip. */
  datatype TripPatch = TripPatch(notes: Option<Option<string>>, cargos: Option<seq<Cargo>>)

  function Patched(t: Trip, p: TripPatch): (u: Trip)
    ensures u.(notes := t.notes, cargos := t.cargos) == t
    ensures p.notes.Some? ==> u.notes == p.notes.value
    ensures p.notes == Some(None) ==> u.notes.None?
    ensures p.notes.None? ==> u.notes == t.notes
    ensures p.cargos.Some? ==> u.cargos == p.cargos.value
    ensures p.cargos.None? ==> u.cargos == t.cargos
  {
    t.(notes := if p.notes.Some? then p.notes.value else t.notes,
       cargos := if p.cargos.Some? then p.cargos.value else t.cargos)
  }

  /** Editing notes and cargos touches no status and no resource. */
  lemma PatchKeepsSafe(f: Fleet, id: Id, p: TripPatch)
    requires Safe(f) && id in f.trips
    ensures Safe(f.(trips := f.trips[id := Patched(f.trips[id], p)]))
  {
    var g := f.(trips := f.trips[id := Patched(f.trips[id], p)]);
    forall k | k in g.trips && IsActive(g.trips[k].status)
      ensures Holds(g, g.trips[k])
    {
      assert Holds(f, f.trips[k]);
    }
  }

  method Update(db: Db, id: Id, patch: TripPatch, actor: Id) returns (r: Outcome<Trip>)
    requires db.Valid()
    modifies db`trips
    ensures db.Valid()
    ensures r.Ok? <==> old(Visible(db, id, actor))
    ensures r.Err? ==> r == Fail(NotFound) && db.trips == old(db.trips)
    ensures r.Ok? ==> db.trips == old(db.trips)[id := Patched(old(db.trips[id]), patch)] && r.value == db.trips[id]
  {
    if !Visible(db, id, actor) {
      return Fail(NotFound);
    }
    db.trips := db.trips[id := Patched(db.trips[id], patch)];
    r := Ok(db.trips[id]);
  }
}
