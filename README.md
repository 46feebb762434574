# lade-api core, modelled in Dafny

lade-api is the back end of a logistics platform. Teams of users manage
clients, drivers, vehicles, route points and routes. They schedule trips that
book a driver and a vehicle, and they bill each trip with an electronic tax
invoice (CFDI) issued through an external tax-document service. This project
models the rules of the platform's core services over an in-memory database.
It proves what each operation does to that database and what it throws.

Layout, one module per source file:

- `Common` holds optional values, the exceptions a call can end in, and the
  `Outcome` of a call.
- `Schema` holds the row types. Its `class Db` keeps every Prisma table as a
  map (or, for subscriptions, a sequence) that the service methods reassign.
  `Db.Valid` states what the database guarantees: fresh ids, unique e-mails and
  join codes, memberships that refer to existing rows, one invoice per trip.
- `Paging` is the page arithmetic of the list endpoints.
- `PrismaErrors` is the Prisma error table and the `@HandlePrismaError()` decorator.
- `TripService` and `TripCron` cover trips and the reservation of their driver
  and vehicle.
- `InvoiceService` covers invoices: the draft, the line items, stamping and
  cancellation.
- `TeamService`, `TeamAccessService` and `UsersService` cover teams,
  memberships and roles.
- `RolesGuard` is the role guard of team endpoints.
- `SubscriptionService` is the subscription expiry job.
- `RouteService` and `RoutePointService` cover routes and route points.
- `UploadRules` holds the folder and file-type rules of the upload endpoints.

Every transaction is one atomic method. Its `modifies` clause names the
tables it may write, so every other table is unchanged. Each method's
`ensures` give the exception for each failing check, that nothing is written
on failure, and the exact new contents of the tables it writes. The wall
clock is the parameter `now` or `today`, as milliseconds. The random join code
is an input. The tax-document service, file storage and password hashing are
datatypes of functions (oracles) that may succeed or fail. Money is exact
`real` arithmetic.

The model follows the code with two exceptions, both listed under Findings:
the team and team-access services are modelled under the corrected
`@HandlePrismaError()` decorator, and `InvoiceService.Stamp` builds its
request with the corrected `InvoiceService.Prepare`. Each finding also has an
as-written member and a lemma that shows the difference. A third finding,
the stale response of a route update, is modelled as written by
`RouteService.Update`, beside its corrected form.

Where the code does something other than what one might expect, and it is
not one of these defects, the model follows the code and a lemma states the
behaviour:

- `TripService.CancellingEndedTripReleasesOthers`: cancelling an
  already-ended trip releases resources another trip holds.
- `TripService.ReopeningDoesNotRebook`: re-opening a trip does not book
  anything.
- `TripCron.ReconcileKeepsResourcesBusy`: the hourly job ends trips without
  releasing their driver and vehicle.
- `RouteService.UpdateSkipsPointCheck`: a route update skips the point check
  of create.
- `TeamService.SoleOwnerCanRemoveThemselves` and `UsersService.RoleChangeOwners`:
  an owner can leave a team without any owner.

Three defects of the code are listed under Findings.

## Model

| member | source | states |
|---|---|---|
| PrismaErrors.HandlePrismaError | src/common/error/prisma-error.ts:12-93 | Never returns normally. A known-request error is thrown per its code's table entry. A validation error becomes BadRequest. An unknown-request error, or anything that is not a Prisma error, becomes InternalServerError. |
| PrismaErrors.KnownRequestStatus | src/common/error/prisma-error.ts:14-85 | Every code outside the listed P2000–P2034 codes becomes InternalServerError, and no code yields anything but BadRequest, NotFound, Conflict, Forbidden or InternalServerError. |
| PrismaErrors.KnownCodeTable | src/common/error/prisma-error.ts:16-84 | The code table read by result. Conflict exactly for P2002. Forbidden exactly for P2004. NotFound exactly for P2001, P2015 and P2025. InternalServerError exactly for P2008, P2024, P2026, P2027, P2028, P2034 and every unlisted code. BadRequest for every other listed code. Never 401 or 503. |
| PrismaErrors.Decorated | src/utils/decorators/handle-prisma-errors.ts:22-39 | The decorator as written: a returned value passes through, and anything thrown is replaced by the exception `handlePrismaError` gives for it. |
| PrismaErrors.DecoratedMasksHttpExceptions | src/utils/decorators/handle-prisma-errors.ts:30-36 | As written, any HttpException thrown inside a decorated method comes out as InternalServerError. |
| PrismaErrors.DecoratedPassingHttp | src/utils/decorators/handle-prisma-errors.ts:22-39 | The corrected decorator: values and HttpExceptions pass through unchanged, and Prisma and other errors are translated. |
| PrismaErrors.DecoratedPassingHttpKeepsStatus | src/utils/decorators/handle-prisma-errors.ts:30-36 | Under the corrected decorator a call fails exactly when the method failed. Every failure is an HttpException, and a service's own exception keeps its status. |
| Paging.FloorDiv | src/geolocation/trips/trip.service.ts:162 | `Math.floor(a / b)`: the unique quotient q with q·b ≤ a < q·b + b for a positive b, or the mirrored bounds for a negative b. |
| Paging.CeilDiv | src/geolocation/routes/route.service.ts:142 | `Math.ceil(a / b)`: the unique q with q·b − b < a ≤ q·b for a positive b, or the mirrored bounds for a negative b. |
| Paging.PageOfSkip | src/geolocation/trips/trip.service.ts:160-163 | For any non-zero page size, the page the trip list reports for offset `(page − 1)·limit` is `page`, negative pages included. |
| Paging.TotalPagesCoversRows | src/geolocation/routes/route.service.ts:94-142 | With a positive limit, `ceil(total/limit)` pages hold every row. There are no pages exactly when there are no rows, and the last page starts before `total`. |
| InvoiceService.Draft | src/payments/invoices/invoice.service.ts:63-72 | The stored row is a DRAFT of the trip and its team. It has subtotal = price, tax = 16 % of the price and total = subtotal + tax, and no external ids or files. |
| InvoiceService.CreateFromTrip | src/payments/invoices/invoice.service.ts:23-76 | NotFound for an unknown trip. BadRequest if the trip already has an invoice, leaving the invoices unchanged. Missing fiscal data does not block creation. Otherwise exactly one new DRAFT row is added under a fresh id. |
| InvoiceService.CargoItems | src/payments/invoices/invoice.service.ts:212-222 | One line per cargo, in cargo order, each of quantity 1, described by the cargo's name, at the given unit price. |
| InvoiceService.Items | src/payments/invoices/invoice.service.ts:212-244 | Quantity 1 and the team's product key on every line. One line per cargo at price ÷ cargo count, or, with no cargo, one line for the whole price described by the team's default description. |
| InvoiceService.CargoItemsAmount | src/payments/invoices/invoice.service.ts:212-222 | The cargo lines add up to cargo count × unit price. |
| InvoiceService.ItemsAmountToPrice | src/payments/invoices/invoice.service.ts:212-244 | Whatever the cargo list, the line items add up to the trip price. |
| InvoiceService.Prepare | src/payments/invoices/invoice.service.ts:191-265 | The request is built exactly when the team has fiscal data; otherwise the property access throws. A built request carries the derived items and the team's CFDI use. |
| InvoiceService.PrepareAsWritten | src/payments/invoices/invoice.service.ts:191-265 | As written: building the request throws a plain error when the invoice object has no client or no team, and also when the trip has no driver, vehicle or route loaded (the PDF section at lines 249-251 reads them). With every relation loaded it builds the same request as the corrected form. |
| InvoiceService.TeamAndClientAloneStillFail | src/payments/invoices/invoice.service.ts:81-97 | With the relations the stamp query loads, giving the invoice object its trip's team and client still fails: the driver, vehicle and route are missing. |
| InvoiceService.Issue | src/payments/invoices/invoice.service.ts:116-150 | The steps run in order (build, create, PDF download, XML download, PDF upload, XML upload), and the first failure is rethrown as is. When every step succeeds the issue succeeds. A success means the service created the invoice, both files were downloaded, and the stored PDF and XML URLs are what storage returned for the invoice's two keys. |
| InvoiceService.FileKeys | src/payments/invoices/invoice.service.ts:134-135 | Both stored files sit under `invoices/`, and the PDF key and the XML key differ. |
| InvoiceService.StampAsWrittenNeverIssues | src/payments/invoices/invoice.service.ts:78-97 | With the invoice object as stamping actually loads it, issuing fails with a plain error for every behaviour of the tax service and of storage. |
| InvoiceService.Stamp | src/payments/invoices/invoice.service.ts:78-189 | NotFound for an unknown id, and BadRequest unless DRAFT; neither writes anything. Otherwise the invoice goes through PENDING. If the pipeline (prepare, issue, download PDF and XML, upload both) succeeds, the invoice is STAMPED with the external ids and file URLs. Otherwise it is left in ERROR and the error is rethrown. No other invoice changes. |
| InvoiceService.StampKeepsAmounts | src/payments/invoices/invoice.service.ts:142-163 | A stamped invoice differs from its draft only in status (STAMPED), the recorded service response and the two file URLs. Its trip, team, subtotal, tax and total stay. |
| InvoiceService.CancelReason | src/payments/invoices/invoice.service.ts:359 | A given reason is sent as is, and an absent one becomes the default reason "01". |
| InvoiceService.Cancel | src/payments/invoices/invoice.service.ts:359-395 | The reason sent to the tax service is the given one, or "01" when none is given. NotFound for an unknown id and BadRequest unless STAMPED. The external cancel is called only when the invoice has an external id, and its failure is rethrown with nothing written. On success the invoice alone becomes CANCELLED with `cancelledAt = now`. |
| TripService.InitialStatus | src/geolocation/trips/trip.service.ts:300-307 | A new trip starts EN_PROCESO iff its start date is not after `now`, and NO_INICIADO iff it is; either way it is active. |
| TripService.ParseTripStatus | src/geolocation/trips/trip.service.ts:405-462 | Only the five status names are statuses, each read as the status it names. |
| TripService.ParseStatusName | src/geolocation/trips/trip.service.ts:429-459 | Every status's name reads back as that status. |
| TripService.NewTrip | src/geolocation/trips/trip.service.ts:310-330 | The created trip carries the request's fields, its cargos (none when absent) and the initial status for `now`. |
| TripService.Book | src/geolocation/trips/trip.service.ts:310-392 | The writes of a create: the trip is stored under its id, its driver becomes EN_VIAJE and its vehicle EN_USO. Every other trip, driver and vehicle is unchanged, and no driver or vehicle is added. |
| TripService.Release | src/geolocation/trips/trip.service.ts:429-452 | The writes of an ending status change: the trip gets the new status, and its driver and vehicle become DISPONIBLE. Every other trip, driver and vehicle is unchanged, and no key is added or dropped. |
| TripService.SetStatus | src/geolocation/trips/trip.service.ts:454-458 | The write of a plain status change: only that trip's status changes. Drivers, vehicles and every other trip stay. |
| TripService.BookKeepsSafe | src/geolocation/trips/trip.service.ts:291-392 | Booking an available driver and vehicle for a new active trip keeps the reservation invariant: every active trip holds its driver (EN_VIAJE) and vehicle (EN_USO), and no two active trips share either. |
| TripService.ReleaseActiveKeepsSafe | src/geolocation/trips/trip.service.ts:429-452 | Ending an active trip and releasing its driver and vehicle keeps the reservation invariant. |
| TripService.SetStatusKeepsSafe | src/geolocation/trips/trip.service.ts:454-458 | A status-only write keeps the invariant unless it makes an ended trip active again. |
| TripService.ReleaseTwiceIsReleaseOnce | src/geolocation/trips/trip.service.ts:568-586 | Cancelling the same trip twice gives the same trips, drivers and vehicles as once, and no trip is deleted. |
| TripService.CancellingEndedTripReleasesOthers | src/geolocation/trips/trip.service.ts:546-589 | Release is not guarded by the trip's status. Cancel a trip, book its driver and vehicle for a new trip, cancel the first trip again, and the new active trip has lost its reservation. |
| TripService.ReopeningDoesNotRebook | src/geolocation/trips/trip.service.ts:454-458 | A cancelled trip set back to EN_PROCESO is active with a DISPONIBLE driver and vehicle. |
| TripService.BookTrip | src/geolocation/trips/trip.service.ts:310-392 | The create transaction: the trip is inserted under a fresh id, its driver becomes EN_VIAJE and its vehicle EN_USO, and nothing else in the fleet changes. |
| TripService.Create | src/geolocation/trips/trip.service.ts:248-403 | Succeeds exactly when the actor is a team member, the client, driver, vehicle and route exist in that team, and the driver and vehicle are DISPONIBLE. Otherwise it throws BadRequest with nothing written. On success it books the trip and adds its draft invoice; invoice creation cannot fail it. |
| TripService.UpdateStatus | src/geolocation/trips/trip.service.ts:405-462 | NotFound unless the trip exists in a team of the actor. A name outside the enum is rejected by the database. A terminal status different from the current one also releases driver and vehicle; any other status is a status-only write. Nothing is written on failure. |
| TripService.Remove | src/geolocation/trips/trip.service.ts:546-589 | NotFound unless visible to the actor. Otherwise the trip is kept, set CANCELADO, and its driver and vehicle become DISPONIBLE. |
| TripService.Patched | src/geolocation/trips/trip.service.ts:479-493 | An edit changes only notes and cargos. Given notes are set, null notes clear them, and absent notes stay. Given cargos replace the list wholesale, and absent or null cargos stay. |
| TripService.PatchKeepsSafe | src/geolocation/trips/trip.service.ts:464-544 | Editing notes and cargos keeps the reservation invariant. |
| TripService.Update | src/geolocation/trips/trip.service.ts:464-544 | NotFound unless visible to the actor, with nothing written. Otherwise only that trip's notes and cargos change, as the patch says (null notes clear them). |
| TripCron.ReconciledStatus | src/geolocation/trips/trip-cron.service.ts:21-73 | A NO_INICIADO trip that has started becomes EN_PROCESO, or FINALIZADO_CON_RETRASO when its end has passed too. An EN_PROCESO trip past its end becomes FINALIZADO_CON_RETRASO. Every other trip keeps its status. |
| TripCron.Reconciled | src/geolocation/trips/trip-cron.service.ts:13-84 | After the job the same trips exist, each with only its status changed, to its reconciled status. |
| TripCron.SetMany | src/geolocation/trips/trip-cron.service.ts:30-46 | A batch update sets the status of exactly the selected trips and keeps every other trip. |
| TripCron.TwoScansReconcile | src/geolocation/trips/trip-cron.service.ts:21-73 | The two scans and batch updates, the second reading the first's writes, give the closed form. |
| TripCron.UpdateTripStatuses | src/geolocation/trips/trip-cron.service.ts:13-84 | The job changes only trips, leaves them reconciled for `now`, and has no failure outcome. |
| TripCron.ReconcileIdempotent | src/geolocation/trips/trip-cron.service.ts:22-56 | A second run at the same instant changes nothing. |
| TripCron.ReconcileTouchesOnlyDue | src/geolocation/trips/trip-cron.service.ts:22-56 | Ended trips and trips whose dates lie ahead keep their status; only active trips move. |
| TripCron.ReconcileKeepsSafe | src/geolocation/trips/trip-cron.service.ts:13-84 | The job keeps the reservation invariant. |
| TripCron.ReconcileKeepsResourcesBusy | src/geolocation/trips/trip-cron.service.ts:48-73 | A trip the job finishes late keeps its driver EN_VIAJE and its vehicle EN_USO. |
| TeamService.OwnersMeansOwner | src/users/team/team.service.ts:78-81 | A user is among a team's owners iff their membership role is OWNER. |
| TeamService.DecoratedDatabaseErrors | src/common/error/prisma-error.ts:19-68 | Through the decorator, a missing record becomes NotFound, a missing reference BadRequest and a duplicate Conflict. |
| TeamService.Create | src/users/team/team.service.ts:26-48 | Succeeds iff the creator exists. The team and the creator's OWNER membership are added together, and the creator is the team's only owner. A missing user is BadRequest with nothing written. |
| TeamService.PatchedTeam | src/users/team/team.service.ts:84-87 | An edit sets only the given name and logo; the join code and fiscal data stay. |
| TeamService.UpdateTeam | src/users/team/team.service.ts:73-88 | NotFound for an unknown team and Forbidden for a non-owner, with nothing written. Otherwise only that team is patched. |
| TeamService.WithoutTeam | src/users/team/team.service.ts:107-110 | Exactly the memberships of other teams remain, with their roles. |
| TeamService.DeleteTeam | src/users/team/team.service.ts:98-112 | Forbidden unless the actor is OWNER. Otherwise every membership of the team and then the team itself are removed, and nothing else. |
| TeamService.RemoveUserFromTeam | src/users/team/team.service.ts:123-140 | Forbidden unless the actor is OWNER. NotFound when the target is not a member. Otherwise only the target's membership is deleted. |
| TeamService.SoleOwnerCanRemoveThemselves | src/users/team/team.service.ts:128-139 | The sole owner can remove their own membership and leave the team with no owner. |
| TeamService.TransferOwnership | src/users/team/team.service.ts:151-180 | Forbidden unless the current user is OWNER, NotFound if the target is not a member. Otherwise the old owner becomes ADMIN and the target OWNER, atomically, and no other membership changes. |
| TeamService.TransferMovesOwnership | src/users/team/team.service.ts:168-177 | After a transfer the owners are the old owners minus the current owner plus the new one. |
| TeamService.LeaveCheck | src/users/team/team.service.ts:190-205 | The checks of leaving, before the decorator: NotFound for a non-member, Forbidden for an OWNER, and success exactly for a member who is not the owner. |
| TeamService.LeaveTeamAsWrittenMasksRefusals | src/users/team/team.service.ts:190-205 | Under the decorator as written, an OWNER leaving and a non-member leaving both get InternalServerError. Under the corrected decorator they get Forbidden and NotFound. |
| TeamService.LeaveTeam | src/users/team/team.service.ts:190-205 | NotFound for a non-member, Forbidden for an OWNER. Otherwise only that membership is removed. |
| TeamService.LeaveKeepsOwners | src/users/team/team.service.ts:190-205 | Leaving never changes the set of owners. |
| TeamAccessService.GenerateJoinCode | src/users/team/access.service.ts:25-38 | Forbidden unless OWNER. Conflict if another team holds the code. Otherwise only the team's join code is set, to the code. |
| TeamAccessService.InviteUserByEmail | src/users/team/access.service.ts:49-62 | NotFound for an unknown e-mail. Conflict for a member or a user already invited. BadRequest for a missing team. The invitation succeeds exactly when the e-mail's user is neither a member nor invited and the team exists, and then exactly one invitation is added; nothing is written on failure. |
| TeamAccessService.JoinTeamByCode | src/users/team/access.service.ts:73-87 | NotFound if no team has the code. Forbidden if already a member. BadRequest for a missing user. Otherwise exactly one USER membership is added, in the team with the code. |
| TeamAccessService.AcceptTeamInvitation | src/users/team/access.service.ts:98-114 | NotFound without an invitation, and Conflict if already a member; nothing is written. Otherwise the invitation is removed and a USER membership added, atomically. |
| TeamAccessService.NewMemberIsNotOwner | src/users/team/access.service.ts:85-109 | A membership added by code or invitation is not an owner and leaves every team's owners unchanged. |
| UsersService.PatchedUser | src/users/users/users.service.ts:59-62 | An update sets the given name, e-mail and phone, keeps absent ones, and never touches the password. |
| UsersService.UpdateUser | src/users/users/users.service.ts:55-63 | NotFound for an unknown user. An e-mail another user has fails with the database's unique error (there is no decorator). Otherwise only that user is patched. |
| UsersService.ChangePassword | src/users/users/users.service.ts:65-91 | NotFound for an unknown user, Unauthorized when the current password does not match, with nothing written. Otherwise only the stored password changes, to the hash of the new one. |
| UsersService.TeamUserDetail | src/users/users/users.service.ts:93-107 | NotFound iff the user has no membership in the team. Otherwise returns the role with that user's and that team's rows. |
| UsersService.UpdateUserRole | src/users/users/users.service.ts:109-127 | Forbidden unless the actor is OWNER. A missing target membership is the database's record-not-found error. Otherwise only that membership's role changes. |
| UsersService.RoleChangeOwners | src/users/users/users.service.ts:121-126 | A role change adds the target to the owners (to OWNER) or removes them (otherwise), even when the target is the last owner. |
| RouteService.FoundPointsBound | src/geolocation/routes/route.service.ts:24-39 | The point query finds at most one row per listed id. It finds as many as listed exactly when the ids are pairwise different points of the team. |
| RouteService.PointIds | src/geolocation/routes/route.service.ts:25 | The point ids of the stops, in stop order. |
| RouteService.PointsPassMeans | src/geolocation/routes/route.service.ts:24-39 | The count check accepts exactly the stop lists whose points are pairwise different points of the team. |
| RouteService.Create | src/geolocation/routes/route.service.ts:11-85 | A plain error unless the client belongs to the team and the stops pass the point check, with nothing written. Otherwise the route and exactly the given stops are inserted together under a fresh id. |
| RouteService.FindOne | src/geolocation/routes/route.service.ts:146-171 | The route iff it exists in that team, else NotFound. |
| RouteService.FindOneIsScoped | src/geolocation/routes/route.service.ts:146-171 | A route is NotFound through every other team. |
| RouteService.PatchedRoute | src/geolocation/routes/route.service.ts:175-187 | An update sets the given fields, keeps absent ones, and never moves the route to another team. |
| RouteService.Update | src/geolocation/routes/route.service.ts:173-210 | NotFound outside the team. A database reference error for a missing client or point, rolled back. Otherwise the route is patched, and a given stop list (possibly empty) replaces all its stops while an absent one keeps them. The response is the route as it was before the update, since it is read outside the transaction. |
| RouteService.FindOneInTransaction | src/geolocation/routes/route.service.ts:173-210 | The corrected response: the route looked up through the transaction after its writes is the patched route. |
| RouteService.UpdateRespondsWithOldRoute | src/geolocation/routes/route.service.ts:208 | An update that renames a route answers with the old route, which differs from the transactional answer carrying the new name. |
| RouteService.UpdateSkipsPointCheck | src/geolocation/routes/route.service.ts:188-205 | A stop at another team's point, which create rejects, passes update's checks. |
| RouteService.UpdateStatus | src/geolocation/routes/route.service.ts:212-234 | NotFound outside the team, with nothing written. Otherwise only that route's status changes. |
| RouteService.Remove | src/geolocation/routes/route.service.ts:236-259 | NotFound outside the team. Otherwise the route is kept, with status DELETED, and no route is deleted. |
| RoutePointService.InitialPointStatus | src/geolocation/locations/routepoint.service.ts:16 | The requested status, or ACTIVE when none is given. |
| RoutePointService.Create | src/geolocation/locations/routepoint.service.ts:11-24 | Exactly one new point of the team is added under a fresh id, with the initial status. |
| RoutePointService.FindOne | src/geolocation/locations/routepoint.service.ts:71-86 | The point iff it exists in that team, else NotFound. |
| RoutePointService.SetStatus | src/geolocation/locations/routepoint.service.ts:88-130 | NotFound outside the team, with nothing written. Otherwise only that point's status changes, or nothing when no status is given. |
| RoutePointService.Update | src/geolocation/locations/routepoint.service.ts:88-100 | NotFound outside the team. Otherwise the optional status is applied. |
| RoutePointService.UpdateStatus | src/geolocation/locations/routepoint.service.ts:102-114 | NotFound outside the team. Otherwise only that point's status is set. |
| RoutePointService.Remove | src/geolocation/locations/routepoint.service.ts:116-130 | NotFound outside the team. Otherwise the point is kept with status DELETED. |
| RoutePointService.FindOneIsScoped | src/geolocation/locations/routepoint.service.ts:71-86 | A point is NotFound through every other team and found through its own. |
| RolesGuard.TeamOf | src/utils/guards/roles.guard.ts:28-31 | The team id comes from the route parameter, else the query, else the `x-current-team-id` header. |
| RolesGuard.CanActivate | src/utils/guards/roles.guard.ts:18-55 | Never denies by returning false: it allows or throws Forbidden. It allows every request on an endpoint without declared roles. |
| RolesGuard.GuardAllowsExactly | src/utils/guards/roles.guard.ts:33-54 | With declared roles, a request passes iff it has a user and a team id and the user's membership in that team has one of the roles. |
| RolesGuard.GuardMonotone | src/utils/guards/roles.guard.ts:50-54 | Declaring more roles never denies a request that fewer roles allowed. |
| RolesGuard.EmptyRoleListDeniesAll | src/utils/guards/roles.guard.ts:24-52 | An empty role list denies every request, while no role list allows every one. |
| RolesGuard.ParamTeamWins | src/utils/guards/roles.guard.ts:28-31 | With a team id in the route parameters, the query and header team ids do not affect the decision. |
| SubscriptionService.CheckedStatus | src/payments/subscription/subscription.service.ts:31-73 | A subscription past its expiry becomes EXPIRED. An ACTIVE one expiring strictly within the next three days becomes EXPIRING_SOON. Any other keeps its status. |
| SubscriptionService.CheckSubscriptions | src/payments/subscription/subscription.service.ts:31-73 | The loop rewrites each subscription, and only its status, to its checked status, keeping the list's length and order and the database invariant. |
| SubscriptionService.RulesExclusive | src/payments/subscription/subscription.service.ts:34-55 | The two rules never both apply, so a subscription is written at most once per run. |
| SubscriptionService.CheckLeavesAlone | src/payments/subscription/subscription.service.ts:34-55 | A subscription expiring exactly now, one already EXPIRED, and one expiring three or more days away keep their status. |
| SubscriptionService.CheckIdempotent | src/payments/subscription/subscription.service.ts:31-73 | A second run on the same day changes nothing. |
| SubscriptionService.CheckNeverReactivates | src/payments/subscription/subscription.service.ts:31-73 | The check never makes a subscription ACTIVE. |
| UploadRules.AllowedTypesForFolder | src/infraestructure/S3/s3.controller.ts:348-367 | Every folder accepts jpg, jpeg and png. Every listed type is one of ten known extensions. A folder outside the seven gets the default list of jpg, jpeg, png, pdf, doc and docx. |
| UploadRules.TypeTable | src/infraestructure/S3/s3.controller.ts:348-367 | Only clients-files accepts xls and xlsx, and only teams accepts svg. |
| UploadRules.PdfTable | src/infraestructure/S3/s3.controller.ts:348-367 | PDF is refused exactly by the four picture folders: teams, drivers-profile, vehicles-profile and user-profiles. |
| UploadRules.OnlyExactTrueIsPublic | src/infraestructure/S3/s3.controller.ts:48 | `isPublic` holds for the text "true" and not for "TRUE", "True", "1" or the empty text. |
| UploadRules.CheckFolderUpload | src/infraestructure/S3/s3.controller.ts:123-143 | ServiceUnavailable when storage is not configured, whatever the folder. Otherwise accepted iff the folder is one of the seven, else BadRequest. |
| UploadRules.CheckUploadUrl | src/infraestructure/S3/s3.controller.ts:228-257 | The checks in order: configured (else ServiceUnavailable), then folder, then the file type against the folder's list (else BadRequest). Accepted iff all three pass. |
| UploadRules.DefaultTypesNeverConsulted | src/infraestructure/S3/s3.controller.ts:236-257 | A folder outside the list is rejected whatever the file-type check would say, so the default type list is never used. |
| UploadRules.SameFolderRule | src/infraestructure/S3/s3.controller.ts:132-143 | A folder the upload-URL endpoint accepts is accepted by the direct upload too. |

## Left out

- Concurrency is not modelled: parallel queries, transaction isolation, and the race between the hourly job and manual status changes. The availability check of trip creation runs before its transaction; here the whole of create is one atomic step.
- Floating point is not modelled: money is exact `real`, so the IEEE rounding of `price * 0.16`, `price * 1.16` and `price / cargos.length` is not captured.
- TeamService and TeamAccessService: every method of the two services (create, update, delete, remove member, transfer ownership, leave, invite, join by code, accept invitation, generate a join code) is modelled under the corrected decorator. As written, each HttpException these methods throw (NotFound, Forbidden, BadRequest, Conflict) reaches the client as InternalServerError; `PrismaErrors.DecoratedMasksHttpExceptions` and `TeamService.LeaveTeamAsWrittenMasksRefusals` state this.
- InvoiceService.Stamp: builds the request with the corrected `InvoiceService.Prepare`, as if the team and client were read from the trip and the trip's driver, vehicle and route were loaded. As written every stamp ends in ERROR; `InvoiceService.StampAsWrittenNeverIssues` and `InvoiceService.TeamAndClientAloneStillFail` state this.
- InvoiceService.Cancel: the controller's `body.reason || '01'` also turns an empty reason into "01"; the model takes the reason as given or absent, which is the service's own default.
- InvoiceService.Draft: states total = subtotal + tax exactly, which holds in exact arithmetic but not always under IEEE rounding.
- The external services are oracles: the tax-document HTTP client, the file download, S3 (upload, presigned URLs, `validateFileType`, `generateFileKey`) and bcrypt/JWT. Their internals are not part of this model.
- UsersService.ChangePassword: the password check is a boolean oracle, so the case where the comparison helper throws Unauthorized itself is folded into the `false` answer.
- UsersService.UpdateUser: the update DTO is not visible, so the patch is taken to be name, e-mail and phone.
- RouteService.Create: the route's default status is taken to be ACTIVE, since the schema default is not visible.
- SubscriptionService.CheckSubscriptions: `addDays(today, 3)` is exactly three 24-hour days, so the daylight-saving shifts of calendar days are not captured.
- Query shapes are not modelled: `include`/`select`, `orderBy` (including the ordering of stops by `order`), `count`, case-insensitive search and the list endpoints' filters. Only their page arithmetic is modelled.
- The customer block and the HTML section of the tax-document request are left out; only the items and the team's defaults are modelled.
- Address creation in team and route-point creation is left out, along with the team's address and status fields. The coordinates `coordsLat` and `coordsLng` of a route-point request are not stored in the model.
- Database referential actions beyond the explicit deletes are left out, including the cascade of team deletion to invitations.
- The address and client foreign keys of route points are not checked.
- Audit logging and the log interceptor are left out, as is every console and logger call. The hourly job's and the invoice hook's caught errors are modelled as having no effect.
- The upload endpoints' multipart file pipe is left out. It accepts only png, jpeg, jpg, pdf, doc and docx and runs before the handler, so an svg direct upload to `teams` is refused there. The key generation and the S3 calls after the checks are left out too.
- Controllers, DTO validation, modules and configuration are left out, apart from the two upload checks.

## Findings

| source | as written | input that shows it | evidently intended | confidence | as-written member | corrected member |
|---|---|---|---|---|---|---|
| src/utils/decorators/handle-prisma-errors.ts:30-36 | The decorator passes every error thrown by the method to `handlePrismaError`, whose fallback turns anything that is not a Prisma error into InternalServerError. | `leaveTeam` called by the team's OWNER throws Forbidden inside the method, and the client receives 500. | Only Prisma errors are translated; HttpExceptions thrown by the service pass through with their status. | not executed | PrismaErrors.Decorated / PrismaErrors.DecoratedMasksHttpExceptions / TeamService.LeaveTeamAsWrittenMasksRefusals | PrismaErrors.DecoratedPassingHttp (with PrismaErrors.DecoratedPassingHttpKeepsStatus) |
| src/payments/invoices/invoice.service.ts:192-251 | `prepareFacturapiInvoice` reads `team` and `client` from the invoice object (line 192), but stamping loads them only under `invoice.trip`. The first property access then throws a TypeError. Its PDF section (lines 249-251) also reads `trip.driver`, `trip.vehicle` and `trip.route`, which the stamp query (lines 81-97) does not include. | Any DRAFT invoice passed to `stampInvoice`. The invoice ends in ERROR whatever the tax service would answer. | Read the team and client of the trip, and include the trip's driver, vehicle and route in the stamp query: the request is then built whenever the team has fiscal data. | not executed | InvoiceService.PrepareAsWritten / InvoiceService.StampAsWrittenNeverIssues / InvoiceService.TeamAndClientAloneStillFail | InvoiceService.Prepare (with InvoiceService.ItemsAmountToPrice), used by InvoiceService.Stamp |
| src/geolocation/routes/route.service.ts:208 | Inside the `$transaction` callback, `update` returns `this.findOne(id, teamId)`, which queries through the service's own client instead of the transaction client `tx`. That read cannot see the transaction's uncommitted writes. | Update a route's name (or its stops): the response carries the old name and the old stops, while the stored route has the new ones. | Look the route up through `tx`, so the response is the route and stops after the update, as the comment above the call says. | not executed | RouteService.Update / RouteService.UpdateRespondsWithOldRoute | RouteService.FindOneInTransaction |
