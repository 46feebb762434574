/** The translation of Prisma client errors into HTTP exceptions
    (`handlePrismaError`), and the `@HandlePrismaError()` method decorator that
    applies it. */
module PrismaErrors {
  import opened Common

  /** The codes the switch lists explicitly. */
  const ListedCodes: set<string> := {
    "P2000", "P2001", "P2002", "P2003", "P2004", "P2005", "P2006", "P2007",
    "P2008", "P2009", "P2010", "P2011", "P2012", "P2013", "P2014", "P2015",
    "P2016", "P2017", "P2018", "P2019", "P2020", "P2021", "P2022", "P2023",
    "P2024", "P2025", "P2026", "P2027", "P2028", "P2030", "P2031", "P2033",
    "P2034"
  }

  /** Listed codes that mean "record not found". */
  const NotFoundCodes: set<string> := {"P2001", "P2015", "P2025"}

  /** Listed codes that mean a failure of the server or the database itself. */
  const ServerFaultCodes: set<string> := {"P2008", "P2024", "P2026", "P2027", "P2028", "P2034"}

  /** The exception a known-request error with this code is turned into. */
  function KnownRequestStatus(code: string): (s: HttpStatus)
    ensures code !in ListedCodes ==> s == InternalServerError
    ensures s in {BadRequest, NotFound, Conflict, Forbidden, InternalServerError}
  {
    match code
    case "P2000" => BadRequest
    case "P2001" => NotFound
    case "P2002" => Conflict
    case "P2003" => BadRequest
    case "P2004" => Forbidden
    case "P2005" => BadRequest
    case "P2006" => BadRequest
    case "P2007" => BadRequest
    case "P2008" => InternalServerError
    case "P2009" => BadRequest
    case "P2010" => BadRequest
    case "P2011" => BadRequest
    case "P2012" => BadRequest
    case "P2013" => BadRequest
    case "P2014" => BadRequest
    case "P2015" => NotFound
    case "P2016" => BadRequest
    case "P2017" => BadRequest
    case "P2018" => BadRequest
    case "P2019" => BadRequest
    case "P2020" => BadRequest
    case "P2021" => BadRequest
    case "P2022" => BadRequest
    case "P2023" => BadRequest
    case "P2024" => InternalServerError
    case "P2025" => NotFound
    case "P2026" => InternalServerError
    case "P2027" => InternalServerError
    case "P2028" => InternalServerError
    case "P2030" => BadRequest
    case "P2031" => BadRequest
    case "P2033" => BadRequest
    case "P2034" => InternalServerError
    case _ => InternalServerError
  }

  /** `handlePrismaError` never returns normally: its result here is the
      exception it throws, whatever it is given. */
  function HandlePrismaError(e: Thrown): (s: HttpStatus)
    ensures e == Prisma(Validation) ==> s == BadRequest
    ensures !e.Prisma? || e.error == UnknownRequest ==> s == InternalServerError
    ensures e.Prisma? && e.error.KnownRequest? ==> s == KnownRequestStatus(e.error.code)
  {
    match e
    case Prisma(KnownRequest(code)) => KnownRequestStatus(code)
    case Prisma(Validation) => BadRequest
    case Prisma(UnknownRequest) => InternalServerError
    case _ => InternalServerError
  }

  /** The switch, read as a classification of codes: each exception kind is
      produced by exactly the codes listed here. */
  lemma KnownCodeTable(code: string)
    ensures KnownRequestStatus(code) == Conflict <==> code == "P2002"
    ensures KnownRequestStatus(code) == Forbidden <==> code == "P2004"
    ensures KnownRequestStatus(code) == NotFound <==> code in NotFoundCodes
    ensures KnownRequestStatus(code) == InternalServerError <==>
              code in ServerFaultCodes || code !in ListedCodes
    ensures KnownRequestStatus(code) == BadRequest <==>
              code in ListedCodes - NotFoundCodes - ServerFaultCodes - {"P2002", "P2004"}
    ensures KnownRequestStatus(code) !in {Unauthorized, ServiceUnavailable}
  {
  }

  /** `@HandlePrismaError()` as written: whatever the decorated method throws,
      Prisma error or not, is passed to `handlePrismaError`. */
  function Decorated<T>(r: Outcome<T>): (d: Outcome<T>)
    ensures r.Ok? ==> d == r
    ensures r.Err? ==> d.Err? && d.thrown == Http(HandlePrismaError(r.thrown))
  {
    match r
    case Ok(_) => r
    case Err(e) => Err(Http(HandlePrismaError(e)))
  }

  /** As written, the decorator turns every HttpException that the decorated
      method throws itself (a Forbidden, a NotFound, a Conflict) into an
      InternalServerError. */
  lemma DecoratedMasksHttpExceptions<T>(s: HttpStatus)
    ensures Decorated<T>(Err(Http(s))) == Err(Http(InternalServerError))
  {
  }

  /** The decorator as evidently intended: HttpExceptions thrown by the method
      pass through unchanged, and only the other errors are translated. The
      team and team-access services are modelled with this one. */
  function DecoratedPassingHttp<T>(r: Outcome<T>): (d: Outcome<T>)
    ensures r.Ok? ==> d == r
    ensures r.Err? && r.thrown.Http? ==> d == r
    ensures r.Err? && !r.thrown.Http? ==> d == Decorated(r)
  {
    match r
    case Err(Http(_)) => r
    case _ => Decorated(r)
  }

  /** With the corrected decorator every call still ends in an HttpException or
      a value, and a service's own exception keeps its status. */
  lemma DecoratedPassingHttpKeepsStatus<T>(r: Outcome<T>)
    ensures DecoratedPassingHttp(r).Err? <==> r.Err?
    ensures r.Err? ==> DecoratedPassingHttp(r).thrown.Http?
    ensures r.Err? && r.thrown.Http? ==> DecoratedPassingHttp(r).thrown.status == r.thrown.status
  {
  }
}
