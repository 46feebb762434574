/** The database tables the core reads and writes, as the Prisma schema
    describes them: one datatype per row type and one `Db` object holding every
    table as a map from id to row. */
module Schema {
  import opened Common

  /** Row ids. The database generates them; here `Db.nextId` does. */
  type Id = nat

  /** Instants, in milliseconds since the epoch. */
  type Timestamp = int

  const MillisPerDay: int := 86_400_000

  // ---- users and teams ----

  datatype Role = OWNER | ADMIN | USER

  datatype User = User(name: string, email: string, phone: string, password: string)

  /** The fiscal profile of a team, used to fill the tax document. */
  datatype FiscalData = FiscalData(
    defaultProductKey: string,
    defaultProductDescription: string,
    defaultCfdiUse: string,
    defaultPaymentForm: string,
    defaultPaymentMethod: string)

  datatype Team = Team(name: string, logo: Option<string>, joinCode: Option<string>, fiscalData: Option<FiscalData>)

  /** The key of the `usersOnTeams` table and of the `teamInvitation` table. */
  datatype MemberKey = MemberKey(userId: Id, teamId: Id)

  // ---- customers, fleet and geography ----

  datatype Client = Client(teamId: Id, name: string)

  datatype DriverStatus = DISPONIBLE | EN_VIAJE | DESACTIVADO

  datatype Driver = Driver(teamId: Id, name: string, status: DriverStatus)

  datatype VehicleStatus = DISPONIBLE | EN_USO | MANTENIMIENTO | CANCELADO | DESUSO

  datatype Vehicle = Vehicle(teamId: Id, plate: string, status: VehicleStatus)

  datatype RouteStatus = ACTIVE | INACTIVE | DELETED

  datatype Route = Route(teamId: Id, clientId: Id, name: string, code: string, company: string, status: RouteStatus)

  /** One row of the `stop` table, without its route id: the stops of a route
      are kept under the route's id in `Db.stops`. */
  datatype Stop = Stop(pointId: Id, order: int)

  datatype RoutePointStatus = ACTIVE | INACTIVE | DELETED

  datatype RoutePoint = RoutePoint(teamId: Id, clientId: Id, addressId: Id, name: string, status: RoutePointStatus)

  // ---- trips ----

  datatype TripStatus = NO_INICIADO | EN_PROCESO | FINALIZADO_A_TIEMPO | FINALIZADO_CON_RETRASO | CANCELADO

  datatype Cargo = Cargo(name: string, weightKg: real, notes: Option<string>)

  datatype Trip = Trip(
    teamId: Id, clientId: Id, driverId: Id, vehicleId: Id, routeId: Id,
    price: real, startDate: Timestamp, endDate: Timestamp,
    notes: Option<string>, cargos: seq<Cargo>, status: TripStatus)

  // ---- invoices and subscriptions ----

  datatype InvoiceStatus = DRAFT | PENDING | STAMPED | ERROR | CANCELLED

  /** What the tax-document service returns for an issued invoice. */
  datatype StampResponse = StampResponse(id: string, pdfUrl: string, xmlUrl: string, number: string, folio: string, uuid: string)

  datatype Invoice = Invoice(
    tripId: Id, teamId: Id,
    subtotal: real, taxAmount: real, total: real,
    status: InvoiceStatus,
    facturapi: Option<StampResponse>,
    localPdfUrl: Option<string>, localXmlUrl: Option<string>,
    cancelledAt: Option<Timestamp>)

  datatype SubscriptionStatus = ACTIVE | EXPIRING_SOON | EXPIRED

  datatype Subscription = Subscription(teamId: Id, expiresAt: Timestamp, status: SubscriptionStatus)

  /** Every key of `m` is below `bound`. */
  ghost predicate KeysBelow<V>(m: map<Id, V>, bound: nat) {
    forall k :: k in m ==> k < bound
  }

  /** No two users share an e-mail. */
  ghost predicate UniqueEmails(users: map<Id, User>) {
    forall u, v :: u in users && v in users && users[u].email == users[v].email ==> u == v
  }

  /** No two teams share a join code. */
  ghost predicate UniqueJoinCodes(teams: map<Id, Team>) {
    forall s, t :: s in teams && t in teams && teams[s].joinCode.Some? && teams[s].joinCode == teams[t].joinCode ==> s == t
  }

  /** Every membership joins an existing user to an existing team. */
  ghost predicate MembersReferToRows(members: map<MemberKey, Role>, users: map<Id, User>, teams: map<Id, Team>) {
    forall k :: k in members ==> k.userId in users && k.teamId in teams
  }

  /** Every trip's driver and vehicle exist. */
  ghost predicate TripsReferToFleet(trips: map<Id, Trip>, drivers: map<Id, Driver>, vehicles: map<Id, Vehicle>) {
    forall t :: t in trips ==> trips[t].driverId in drivers && trips[t].vehicleId in vehicles
  }

  /** Every invoice belongs to an existing trip, and no trip has two. */
  ghost predicate InvoicesReferToTrips(invoices: map<Id, Invoice>, trips: map<Id, Trip>) {
    && (forall i :: i in invoices ==> invoices[i].tripId in trips)
    && (forall i, j :: i in invoices && j in invoices && invoices[i].tripId == invoices[j].tripId ==> i == j)
  }

  /** The database. */
  class Db {
    var users: map<Id, User>
    var teams: map<Id, Team>
    var members: map<MemberKey, Role>
    var invitations: set<MemberKey>
    var clients: map<Id, Client>
    var drivers: map<Id, Driver>
    var vehicles: map<Id, Vehicle>
    var routes: map<Id, Route>
    var stops: map<Id, seq<Stop>>
    var points: map<Id, RoutePoint>
    var trips: map<Id, Trip>
    var invoices: map<Id, Invoice>
    var subscriptions: seq<Subscription>
    /** The next id the database hands out. */
    var nextId: nat

    /** What the database guarantees: fresh ids, unique e-mails and join
        codes, memberships join existing users and teams, a trip's driver
        and vehicle exist, each route has its stop
        list, and each invoice belongs to an existing trip, one per trip. */
    ghost predicate Valid()
      reads this
    {
      && KeysBelow(users, nextId) && KeysBelow(teams, nextId) && KeysBelow(clients, nextId)
      && KeysBelow(drivers, nextId) && KeysBelow(vehicles, nextId) && KeysBelow(routes, nextId)
      && KeysBelow(points, nextId) && KeysBelow(trips, nextId) && KeysBelow(invoices, nextId)
      && UniqueEmails(users)
      && UniqueJoinCodes(teams)
      && MembersReferToRows(members, users, teams)
      && TripsReferToFleet(trips, drivers, vehicles)
      && routes.Keys == stops.Keys
      && InvoicesReferToTrips(invoices, trips)
    }

    /** An empty database. */
    constructor ()
      ensures Valid()
      ensures users == map[] && teams == map[] && members == map[] && invitations == {}
      ensures clients == map[] && drivers == map[] && vehicles == map[] && routes == map[]
      ensures stops == map[] && points == map[] && trips == map[] && invoices == map[]
      ensures subscriptions == []
    {
      users, teams, members, invitations := map[], map[], map[], {};
      clients, drivers, vehicles, routes := map[], map[], map[], map[];
      stops, points, trips, invoices := map[], map[], map[], map[];
      subscriptions, nextId := [], 0;
    }

    /** Hands out a fresh id. */
    method NewId() returns (id: Id)
      requires Valid()
      modifies this`nextId
      ensures Valid() && nextId == id + 1 && id == old(nextId)
      ensures id !in users && id !in teams && id !in clients && id !in drivers && id !in vehicles
      ensures id !in routes && id !in points && id !in trips && id !in invoices
    {
      id := nextId;
      nextId := nextId + 1;
    }
  }
}
