/** The hourly job that moves trips along by their dates: trips whose start
    has come begin, and begun trips whose end has passed finish late. */
module TripCron {
  import opened Common
  import opened Schema
  import opened TripService

  /** The status the job leaves a trip in, in closed form: the second scan
      sees the writes of the first, so a trip whose start and end have both
      passed goes all the way to FINALIZADO_CON_RETRASO in one run. */
  function ReconciledStatus(t: Trip, now: Timestamp): (s: TripStatus)
    ensures t.status == NO_INICIADO && t.startDate <= now ==> s == (if t.endDate < now then FINALIZADO_CON_RETRASO else EN_PROCESO)
    ensures t.status == EN_PROCESO && t.endDate < now ==> s == FINALIZADO_CON_RETRASO
    ensures !(t.status == NO_INICIADO && t.startDate <= now) && !(t.status == EN_PROCESO && t.endDate < now) ==> s == t.status
  {
    var s1 := if t.status == NO_INICIADO && t.startDate <= now then EN_PROCESO else t.status;
    if s1 == EN_PROCESO && t.endDate < now then FINALIZADO_CON_RETRASO else s1
  }

  /** Every trip after a run of the job at `now`. */
  function Reconciled(trips: map<Id, Trip>, now: Timestamp): (r: map<Id, Trip>)
    ensures r.Keys == trips.Keys
    ensures forall id :: id in r ==> r[id] == trips[id].(status := ReconciledStatus(trips[id], now))
  {
    map id | id in trips :: trips[id].(status := ReconciledStatus(trips[id], now))
  }

  /** The ids of the trips a scan selects, then the batch update it makes. */
  function DueToStart(trips: map<Id, Trip>, now: Timestamp): set<Id> {
    set id | id in trips && trips[id].status == NO_INICIADO && trips[id].startDate <= now
  }

  function Overdue(trips: map<Id, Trip>, now: Timestamp): set<Id> {
    set id | id in trips && trips[id].status == EN_PROCESO && trips[id].endDate < now
  }

  function SetMany(trips: map<Id, Trip>, ids: set<Id>, to: TripStatus): (r: map<Id, Trip>)
    ensures r.Keys == trips.Keys
    ensures forall id :: id in r ==> r[id] == if id in ids then trips[id].(status := to) else trips[id]
  {
    map id | id in trips :: if id in ids then trips[id].(status := to) else trips[id]
  }

  /** The two batch updates, one after the other, give the closed form. */
  lemma TwoScansReconcile(trips: map<Id, Trip>, now: Timestamp)
    ensures var first := SetMany(trips, DueToStart(trips, now), EN_PROCESO);
      SetMany(first, Overdue(first, now), FINALIZADO_CON_RETRASO) == Reconciled(trips, now)
  {
  }

  /** A batch update of no trip writes nothing. */
  lemma SetNoneIsIdentity(trips: map<Id, Trip>, to: TripStatus)
    ensures SetMany(trips, {}, to) == trips
  {
  }

  /** A change of statuses alone keeps the database consistent. */
  lemma StatusesOnlyKeepValid(db: Db, trips: map<Id, Trip>)
    requires db.Valid() && trips.Keys == db.trips.Keys
    requires forall id :: id in trips ==> trips[id] == db.trips[id].(status := trips[id].status)
    ensures TripsReferToFleet(trips, db.drivers, db.vehicles) && KeysBelow(trips, db.nextId)
    ensures InvoicesReferToTrips(db.invoices, trips)
  {
  }

  /** The job: two scans, each followed by a batch update of the trips it
      found. Only trip statuses change; drivers and vehicles are not touched.
      Errors are only logged, so the job has no failure outcome. */
  method UpdateTripStatuses(db: Db, now: Timestamp)
    requires db.Valid()
    modifies db`trips
    ensures db.Valid()
    ensures db.trips == Reconciled(old(db.trips), now)
  {
    TwoScansReconcile(db.trips, now);
    StatusesOnlyKeepValid(db, Reconciled(db.trips, now));
    var toStart := DueToStart(db.trips, now);
    if |toStart| > 0 {
      db.trips := SetMany(db.trips, toStart, EN_PROCESO);
    } else {
      SetNoneIsIdentity(db.trips, EN_PROCESO);
    }
    var overdue := Overdue(db.trips, now);
    if |overdue| > 0 {
      db.trips := SetMany(db.trips, overdue, FINALIZADO_CON_RETRASO);
    } else {
      SetNoneIsIdentity(db.trips, FINALIZADO_CON_RETRASO);
    }
  }

  /** A second run at the same instant changes nothing. */
  lemma ReconcileIdempotent(trips: map<Id, Trip>, now: Timestamp)
    ensures Reconciled(Reconciled(trips, now), now) == Reconciled(trips, now)
  {
    var once := Reconciled(trips, now);
    forall id | id in once
      ensures ReconciledStatus(once[id], now) == once[id].status
    {
    }
  }

  /** Trips that have ended, and trips whose dates are still ahead, keep
      their status; nothing moves backwards. */
  lemma ReconcileTouchesOnlyDue(trips: map<Id, Trip>, now: Timestamp, id: Id)
    requires id in trips
    ensures IsTerminal(trips[id].status) ==> Reconciled(trips, now)[id].status == trips[id].status
    ensures trips[id].status == NO_INICIADO && now < trips[id].startDate ==> Reconciled(trips, now)[id].status == NO_INICIADO
    ensures trips[id].status == EN_PROCESO && now <= trips[id].endDate ==> Reconciled(trips, now)[id].status == EN_PROCESO
    ensures Reconciled(trips, now)[id].status != trips[id].status ==> IsActive(trips[id].status)
  {
  }

  /** The job only ends or starts trips, so the reservation invariant holds
      after it. */
  lemma ReconcileKeepsSafe(f: Fleet, now: Timestamp)
    requires Safe(f)
    ensures Safe(f.(trips := Reconciled(f.trips, now)))
  {
    var g := f.(trips := Reconciled(f.trips, now));
    forall k | k in g.trips && IsActive(g.trips[k].status)
      ensures Holds(g, g.trips[k])
    {
      assert Holds(f, f.trips[k]);
    }
  }

  /** A trip the job finishes keeps its driver EN_VIAJE and its vehicle
      EN_USO: the job never releases them. */
  lemma ReconcileKeepsResourcesBusy(f: Fleet, now: Timestamp, id: Id)
    requires Safe(f) && id in f.trips && f.trips[id].status == EN_PROCESO && f.trips[id].endDate < now
    ensures var g := f.(trips := Reconciled(f.trips, now));
      && g.trips[id].status == FINALIZADO_CON_RETRASO
      && g.drivers[g.trips[id].driverId].status == DriverStatus.EN_VIAJE
      && g.vehicles[g.trips[id].vehicleId].status == VehicleStatus.EN_USO
  {
    assert Holds(f, f.trips[id]);
  }
}
