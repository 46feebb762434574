/** Invoices: the draft an invoice starts as, stamping through the external
    tax-document service (DRAFT, then PENDING, then STAMPED or ERROR), and
    cancellation of a stamped invoice. */
module InvoiceService {
  import opened Common
  import opened Schema

  /** The single IVA rate. */
  const TaxRate: real := 0.16

  type Bytes = seq<bv8>

  datatype DocType = Pdf | Xml

  /** The tax-document service: issue a document, download its rendered and
      structured files, cancel it. Each call may fail. */
  datatype TaxService = TaxService(
    createInvoice: Payload -> Outcome<StampResponse>,
    download: (string, DocType) -> Outcome<Bytes>,
    cancelInvoice: (string, string) -> Outcome<()>)

  /** File storage: store bytes under a key with a content type, get back a URL. */
  datatype Storage = Storage(uploadFile: (string, Bytes, string) -> Outcome<string>)

  /** One line of the tax document. */
  datatype Item = Item(quantity: nat, description: string, productKey: string, price: real)

  /** The request sent to the tax-document service (the customer block and the
      HTML section are not modelled). */
  datatype Payload = Payload(items: seq<Item>, use: string, paymentForm: string, paymentMethod: string)

  /** What a successful issue leaves to record on the invoice. */
  datatype Issued = Issued(response: StampResponse, localPdfUrl: string, localXmlUrl: string)

  // ---- creation ----

  /** The row createInvoiceFromTrip stores for a trip. */
  function Draft(tripId: Id, trip: Trip): (inv: Invoice)
    ensures inv.status == DRAFT && inv.tripId == tripId && inv.teamId == trip.teamId
    ensures inv.subtotal == trip.price && inv.taxAmount == trip.price * TaxRate
    ensures inv.total == inv.subtotal + inv.taxAmount
    ensures inv.facturapi.None? && inv.localPdfUrl.None? && inv.localXmlUrl.None? && inv.cancelledAt.None?
  {
    Invoice(tripId, trip.teamId, trip.price, trip.price * 0.16, trip.price * 1.16, DRAFT, None, None, None, None)
  }

  /** Some invoice belongs to the trip. */
  predicate HasInvoice(invoices: map<Id, Invoice>, tripId: Id) {
    exists i :: i in invoices && invoices[i].tripId == tripId
  }

  method CreateFromTrip(db: Db, tripId: Id) returns (r: Outcome<Id>)
    requires db.Valid()
    modifies db`invoices, db`nextId
    ensures db.Valid()
    ensures r.Ok? <==> old(tripId in db.trips && !HasInvoice(db.invoices, tripId))
    ensures old(tripId !in db.trips) ==> r == Fail(NotFound)
    ensures old(tripId in db.trips && HasInvoice(db.invoices, tripId)) ==> r == Fail(BadRequest)
    ensures r.Err? ==> db.invoices == old(db.invoices)
    ensures r.Ok? ==> r.value !in old(db.invoices)
    ensures r.Ok? ==> db.invoices == old(db.invoices)[r.value := Draft(tripId, old(db.trips[tripId]))]
  {
    if tripId !in db.trips {
      return Fail(NotFound);
    }
    var trip := db.trips[tripId];
    // a team without fiscal data only gets a warning in the log
    if exists i :: i in db.invoices && db.invoices[i].tripId == tripId {
      return Fail(BadRequest);
    }
    var id := db.NewId();
    db.invoices := db.invoices[id := Draft(tripId, trip)];
    r := Ok(id);
  }

  // ---- line items ----

  /** One line per cargo, each of quantity 1 at the given unit price. */
  function CargoItems(cargos: seq<Cargo>, unitPrice: real, productKey: string): (items: seq<Item>)
    ensures |items| == |cargos|
    ensures forall i :: 0 <= i < |cargos| ==> items[i] == Item(1, cargos[i].name, productKey, unitPrice)
  {
    if cargos == [] then []
    else [Item(1, cargos[0].name, productKey, unitPrice)] + CargoItems(cargos[1..], unitPrice, productKey)
  }

  /** The lines of the document: the price split evenly over the cargos, or
      one line for the whole price described by the team's defaults when the
      trip has no cargo. */
  function Items(price: real, cargos: seq<Cargo>, fiscal: FiscalData): (items: seq<Item>)
    ensures |items| == if cargos == [] then 1 else |cargos|
    ensures forall i :: 0 <= i < |items| ==> items[i].quantity == 1 && items[i].productKey == fiscal.defaultProductKey
    ensures cargos == [] ==> items[0].description == fiscal.defaultProductDescription && items[0].price == price
    ensures forall i :: 0 <= i < |cargos| ==> items[i].description == cargos[i].name
    ensures forall i :: 0 <= i < |cargos| ==> items[i].price * |cargos| as real == price
  {
    if cargos == [] then [Item(1, fiscal.defaultProductDescription, fiscal.defaultProductKey, price)]
    else CargoItems(cargos, price / |cargos| as real, fiscal.defaultProductKey)
  }

  /** The amount the lines add up to. */
  function Amount(items: seq<Item>): real {
    if items == [] then 0.0 else items[0].quantity as real * items[0].price + Amount(items[1..])
  }

  lemma {:induction false} CargoItemsAmount(cargos: seq<Cargo>, unitPrice: real, productKey: string)
    ensures Amount(CargoItems(cargos, unitPrice, productKey)) == |cargos| as real * unitPrice
  {
    if cargos != [] {
      CargoItemsAmount(cargos[1..], unitPrice, productKey);
      var items := CargoItems(cargos, unitPrice, productKey);
      assert items[1..] == CargoItems(cargos[1..], unitPrice, productKey);
    }
  }

  /** Whatever the cargo list, the lines add up to the trip price. */
  lemma ItemsAmountToPrice(price: real, cargos: seq<Cargo>, fiscal: FiscalData)
    ensures Amount(Items(price, cargos, fiscal)) == price
  {
    if cargos != [] {
      CargoItemsAmount(cargos, price / |cargos| as real, fiscal.defaultProductKey);
    } else {
      var items := Items(price, cargos, fiscal);
      assert Amount(items[1..]) == 0.0;
    }
  }

  /** The document request for a trip. Every part of it reads the team's
      fiscal data, so without fiscal data the property access fails. */
  function Prepare(price: real, cargos: seq<Cargo>, fiscal: Option<FiscalData>): (p: Outcome<Payload>)
    ensures p.Ok? <==> fiscal.Some?
    ensures p.Err? ==> p.thrown == Plain
    ensures p.Ok? ==> p.value.items == Items(price, cargos, fiscal.value) && p.value.use == fiscal.value.defaultCfdiUse
  {
    match fiscal
    case None => Err(Plain)
    case Some(f) => Ok(Payload(Items(price, cargos, f), f.defaultCfdiUse, f.defaultPaymentForm, f.defaultPaymentMethod))
  }

  // ---- the document as stampInvoice actually loads it ----

  /** The invoice object stampInvoice loads: the trip with its team, client and
      cargos. The invoice has no `team` or `client` of its own, and the trip
      carries no driver, vehicle or route: `None` marks a relation the query
      does not include. */
  datatype LoadedInvoice = LoadedInvoice(
    invoice: Invoice, trip: Trip, tripTeam: Team, tripClient: Client,
    team: Option<Team>, client: Option<Client>,
    tripDriver: Option<Driver>, tripVehicle: Option<Vehicle>, tripRoute: Option<Route>)

  function StampQuery(invoice: Invoice, trip: Trip, team: Team, client: Client): LoadedInvoice {
    LoadedInvoice(invoice, trip, team, client, None, None, None, None, None)
  }

  /** Every relation prepareFacturapiInvoice dereferences is loaded. */
  predicate FullyLoaded(l: LoadedInvoice) {
    l.client.Some? && l.team.Some? && l.tripDriver.Some? && l.tripVehicle.Some? && l.tripRoute.Some?
  }

  /** prepareFacturapiInvoice as written: it reads `team` and `client` from the
      invoice object itself (the customer block reads `client.name` first),
      and the PDF section reads the name of the trip's driver, the plate of
      its vehicle and the name of its route. A missing relation throws. */
  function PrepareAsWritten(l: LoadedInvoice): (p: Outcome<Payload>)
    ensures l.client.None? || l.team.None? ==> p == Err(Plain)
    ensures l.tripDriver.None? || l.tripVehicle.None? || l.tripRoute.None? ==> p == Err(Plain)
    ensures FullyLoaded(l) ==> p == Prepare(l.trip.price, l.trip.cargos, l.team.value.fiscalData)
  {
    if l.client.None? || l.team.None? then Err(Plain)
    else
      match Prepare(l.trip.price, l.trip.cargos, l.team.value.fiscalData)
      case Err(e) => Err(e)
      case Ok(payload) =>
        if l.tripDriver.None? || l.tripVehicle.None? || l.tripRoute.None? then Err(Plain)
        else Ok(payload)
  }

  // ---- stamping ----

  /** The storage keys of the two files of an issued invoice. */
  function PdfKey(invoiceId: Id): string {
    "invoices/" + IdText(invoiceId) + "/invoice.pdf"
  }

  function XmlKey(invoiceId: Id): string {
    "invoices/" + IdText(invoiceId) + "/invoice.xml"
  }

  /** The decimal text of an id. */
  function IdText(n: nat): (s: string)
    ensures |s| >= 1
  {
    if n < 10 then [DigitChar(n)] else IdText(n / 10) + [DigitChar(n % 10)]
  }

  function DigitChar(d: nat): char
    requires d < 10
  {
    "0123456789"[d]
  }

  /** The two files go under the invoice's own folder, at different keys. */
  lemma FileKeys(invoiceId: Id)
    ensures PdfKey(invoiceId)[..9] == XmlKey(invoiceId)[..9] == "invoices/"
    ensures PdfKey(invoiceId) != XmlKey(invoiceId)
  {
    var p, x := PdfKey(invoiceId), XmlKey(invoiceId);
    assert |p| == |x|;
    assert p[|p| - 3] == 'p' && x[|x| - 3] == 'x';
  }

  /** The external part of stamping, in order: issue the document, download the
      PDF and the XML, upload both; the first failure ends it. */
  function Issue(payload: Outcome<Payload>, invoiceId: Id, api: TaxService, storage: Storage): (r: Outcome<Issued>)
    ensures payload.Err? ==> r == Err(payload.thrown)
    ensures payload.Ok? && api.createInvoice(payload.value).Err? ==> r == Err(api.createInvoice(payload.value).thrown)
    ensures r.Ok? ==> payload.Ok? && api.createInvoice(payload.value) == Ok(r.value.response)
    ensures payload.Ok? && api.createInvoice(payload.value).Ok? ==>
              var pdf := api.download(api.createInvoice(payload.value).value.id, Pdf);
              var xml := api.download(api.createInvoice(payload.value).value.id, Xml);
              && (pdf.Err? ==> r == Err(pdf.thrown))
              && (pdf.Ok? && xml.Err? ==> r == Err(xml.thrown))
              && (pdf.Ok? && xml.Ok? ==>
                    var pdfUrl := storage.uploadFile(PdfKey(invoiceId), pdf.value, "application/pdf");
                    var xmlUrl := storage.uploadFile(XmlKey(invoiceId), xml.value, "application/xml");
                    && (pdfUrl.Err? ==> r == Err(pdfUrl.thrown))
                    && (pdfUrl.Ok? && xmlUrl.Err? ==> r == Err(xmlUrl.thrown))
                    && (pdfUrl.Ok? && xmlUrl.Ok? ==> r.Ok?))
    ensures r.Ok? ==>
              && api.download(r.value.response.id, Pdf).Ok? && api.download(r.value.response.id, Xml).Ok?
              && storage.uploadFile(PdfKey(invoiceId), api.download(r.value.response.id, Pdf).value, "application/pdf") == Ok(r.value.localPdfUrl)
              && storage.uploadFile(XmlKey(invoiceId), api.download(r.value.response.id, Xml).value, "application/xml") == Ok(r.value.localXmlUrl)
  {
    if payload.Err? then Err(payload.thrown) else
    var created := api.createInvoice(payload.value);
    if created.Err? then Err(created.thrown) else
    var pdf := api.download(created.value.id, Pdf);
    if pdf.Err? then Err(pdf.thrown) else
    var xml := api.download(created.value.id, Xml);
    if xml.Err? then Err(xml.thrown) else
    var pdfUrl := storage.uploadFile(PdfKey(invoiceId), pdf.value, "application/pdf");
    if pdfUrl.Err? then Err(pdfUrl.thrown) else
    var xmlUrl := storage.uploadFile(XmlKey(invoiceId), xml.value, "application/xml");
    if xmlUrl.Err? then Err(xmlUrl.thrown) else
    Ok(Issued(created.value, pdfUrl.value, xmlUrl.value))
  }

  /** As written, no behaviour of the tax service or of storage lets a
      stamping succeed: preparing the request always throws. */
  lemma StampAsWrittenNeverIssues(invoice: Invoice, trip: Trip, team: Team, client: Client,
                                  invoiceId: Id, api: TaxService, storage: Storage)
    ensures Issue(PrepareAsWritten(StampQuery(invoice, trip, team, client)), invoiceId, api, storage) == Err(Plain)
  {
  }

  /** Reading the team and client of the trip is not enough on its own: with
      the stamp query's relations, the PDF section still throws. */
  lemma TeamAndClientAloneStillFail(invoice: Invoice, trip: Trip, team: Team, client: Client)
    ensures PrepareAsWritten(StampQuery(invoice, trip, team, client).(team := Some(team), client := Some(client))) == Err(Plain)
  {
  }

  /** The invoice after a successful issue. */
  function Stamped(inv: Invoice, issued: Issued): Invoice {
    inv.(status := STAMPED, facturapi := Some(issued.response),
         localPdfUrl := Some(issued.localPdfUrl), localXmlUrl := Some(issued.localXmlUrl))
  }

  /** The fiscal data of the team that owns a trip, if any. */
  function FiscalDataOf(teams: map<Id, Team>, trip: Trip): Option<FiscalData> {
    if trip.teamId in teams then teams[trip.teamId].fiscalData else None
  }

  method Stamp(db: Db, invoiceId: Id, api: TaxService, storage: Storage) returns (r: Outcome<Invoice>)
    requires db.Valid()
    modifies db`invoices
    ensures db.Valid()
    ensures old(invoiceId !in db.invoices) ==> r == Fail(NotFound) && db.invoices == old(db.invoices)
    ensures old(invoiceId in db.invoices && db.invoices[invoiceId].status != DRAFT) ==>
              r == Fail(BadRequest) && db.invoices == old(db.invoices)
    ensures old(invoiceId in db.invoices && db.invoices[invoiceId].status == DRAFT) ==>
              var inv := old(db.invoices[invoiceId]);
              var trip := old(db.trips[inv.tripId]);
              var issued := Issue(Prepare(trip.price, trip.cargos, FiscalDataOf(old(db.teams), trip)), invoiceId, api, storage);
              && (issued.Ok? ==> r == Ok(Stamped(inv, issued.value)) && db.invoices == old(db.invoices)[invoiceId := r.value])
              && (issued.Err? ==> r == Err(issued.thrown) && db.invoices == old(db.invoices)[invoiceId := inv.(status := ERROR)])
    ensures old(invoiceId in db.invoices) ==>
              var before, after := old(db.invoices[invoiceId]), db.invoices[invoiceId];
              after.subtotal == before.subtotal && after.taxAmount == before.taxAmount && after.total == before.total
  {
    if invoiceId !in db.invoices {
      return Fail(NotFound);
    }
    var inv := db.invoices[invoiceId];
    if inv.status != DRAFT {
      return Fail(BadRequest);
    }
    var trip := db.trips[inv.tripId];
    db.invoices := db.invoices[invoiceId := inv.(status := PENDING)];
    var issued := Issue(Prepare(trip.price, trip.cargos, FiscalDataOf(db.teams, trip)), invoiceId, api, storage);
    if issued.Err? {
      db.invoices := db.invoices[invoiceId := inv.(status := ERROR)];
      return Err(issued.thrown);
    }
    db.invoices := db.invoices[invoiceId := Stamped(inv, issued.value)];
    r := Ok(db.invoices[invoiceId]);
  }

  /** A stamped invoice differs from its draft only in its status, the
      service's response and the two file URLs: the trip, the team and the
      amounts stay. */
  lemma StampKeepsAmounts(inv: Invoice, issued: Issued)
    ensures Stamped(inv, issued).(status := inv.status, facturapi := inv.facturapi,
                                  localPdfUrl := inv.localPdfUrl, localXmlUrl := inv.localXmlUrl) == inv
    ensures Stamped(inv, issued).status == STAMPED
    ensures Stamped(inv, issued).facturapi == Some(issued.response)
  {
  }

  // ---- cancellation ----

  /** The cancellation reason used when the caller gives none. */
  const DefaultCancelReason: string := "01"

  /** The reason sent to the tax-document service. */
  function CancelReason(reason: Option<string>): (s: string)
    ensures reason.None? ==> s == DefaultCancelReason
    ensures reason.Some? ==> s == reason.value
  {
    match reason
    case Some(given) => given
    case None => DefaultCancelReason
  }

  /** The invoice has a (non-empty) id in the tax-document service. */
  predicate HasExternalId(inv: Invoice) {
    inv.facturapi.Some? && inv.facturapi.value.id != ""
  }

  method Cancel(db: Db, id: Id, reason: Option<string>, now: Timestamp, api: TaxService) returns (r: Outcome<()>)
    requires db.Valid()
    modifies db`invoices
    ensures db.Valid()
    ensures old(id !in db.invoices) ==> r == Fail(NotFound)
    ensures old(id in db.invoices && db.invoices[id].status != STAMPED) ==> r == Fail(BadRequest)
    ensures r.Err? ==> db.invoices == old(db.invoices)
    ensures r.Ok? <==> old(id in db.invoices && db.invoices[id].status == STAMPED) &&
                       (old(HasExternalId(db.invoices[id])) ==> api.cancelInvoice(old(db.invoices[id].facturapi.value.id), CancelReason(reason)).Ok?)
    ensures old(id in db.invoices && db.invoices[id].status == STAMPED && HasExternalId(db.invoices[id])) &&
            api.cancelInvoice(old(db.invoices[id].facturapi.value.id), CancelReason(reason)).Err? ==>
              r == Err(api.cancelInvoice(old(db.invoices[id].facturapi.value.id), CancelReason(reason)).thrown)
    ensures r.Ok? ==> db.invoices == old(db.invoices)[id := old(db.invoices[id]).(status := CANCELLED, cancelledAt := Some(now))]
  {
    if id !in db.invoices {
      return Fail(NotFound);
    }
    var inv := db.invoices[id];
    if inv.status != STAMPED {
      return Fail(BadRequest);
    }
    if HasExternalId(inv) {
      var cancelled := api.cancelInvoice(inv.facturapi.value.id, CancelReason(reason));
      if cancelled.Err? {
        return Err(cancelled.thrown);
      }
    }
    db.invoices := db.invoices[id := inv.(status := CANCELLED, cancelledAt := Some(now))];
    r := Ok(());
  }
}
