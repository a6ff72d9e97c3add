/**
 * From a published prequote to a dispatch: single-use conversion into a request and its quote, the
 * attested acceptance of that quote, and the older routes that quote and accept requests made directly.
 *
 * Each operation is one transaction under the row locks of the prequote or the request, so one atomic
 * step that rolls back whole. Its idempotency record is written in the same transaction and never
 * removed, so looking for it before the transaction or inside it finds the same. Public identifiers and
 * UUIDs come from one counter; payloads stand for their fingerprints; the database stamps a conversion
 * and an acceptance with a second, later reading of its clock. The
 * fields `conversion`, `offered`, `accepted`, `dispatch` and `acceptance` of a row are what the unique
 * indexes on the tables that refer to it hold, so a lookup by foreign key reads them.
 */
module Conversion {
  import opened Common
  import PrequoteStore

  type Client = nat
  type Offer = PrequoteStore.Offer
  type Conditions = PrequoteStore.Conditions

  datatype Prequote = Prequote(client: Client, conditions: Conditions, offer: Offer, expiresAt: nat, conversion: Option<nat>)

  /** A request body; `conditions` is what normalising its stops and packages gives, if it is accepted. */
  datatype ConvertDto = ConvertDto(
    conditionsVersion: int, serviceType: string, goodsPaymentMode: string, currency: string,
    conditions: Option<Conditions>, paidAt: nat, orderedAt: nat, text: nat)

  datatype Authorization = Authorization(
    quote: nat, amount: int, currency: string, expiresAt: nat, authorizedAt: nat, reference: nat)

  datatype Payload = ConvertPayload(prequote: nat, dto: ConvertDto) | AcceptPayload(quote: nat, authorization: Authorization)
                   | OtherPayload(body: nat)

  datatype Record = Record(operation: string, resourceType: string, payload: Payload, resourceId: nat, hasExecution: bool)
  datatype Key = Key(client: Client, key: string)

  /** `record` is the idempotency record it was created under. */
  datatype ConversionRow = ConversionRow(
    prequote: nat, request: nat, quote: nat, client: Client, record: Key, convertedAt: nat)
  datatype RequestRow = RequestRow(
    client: Client, createdAt: nat, cancelled: bool, conversion: Option<nat>, offered: Option<nat>, accepted: Option<nat>)

  datatype QuoteStatus = OFFERED | ACCEPTED | EXPIRED | CANCELLED
  datatype QuoteRow = QuoteRow(
    request: nat, offer: Offer, status: QuoteStatus, createdAt: nat, expiresAt: nat, acceptedAt: Option<nat>,
    dispatch: Option<nat>, acceptance: Option<nat>)

  datatype AcceptanceRow = AcceptanceRow(
    conversion: nat, request: nat, quote: nat, client: Client, record: Key, dispatch: nat, acceptedAt: nat,
    authorizedAt: nat, amount: int, currency: string, expiresAt: nat)
  datatype DispatchRow = DispatchRow(request: nat, quote: nat, openedAt: nat)

  datatype World = World(
    clock: nat, nextUuid: nat, activeZones: set<nat>, prequotes: map<nat, Prequote>, records: map<Key, Record>,
    conversions: map<nat, ConversionRow>, requests: map<nat, RequestRow>, quotes: map<nat, QuoteRow>,
    acceptances: map<nat, AcceptanceRow>, dispatches: map<nat, DispatchRow>)

  const START := World(0, 0, {}, map[], map[], map[], map[], map[], map[], map[])

  datatype Error =
    | BAD_REQUEST | NOT_FOUND | IDEMPOTENCY_CONFLICT | PREQUOTE_CONVERSION_DISABLED | PREQUOTE_ALREADY_CONVERTED
    | PREQUOTE_SERVICE_UNAVAILABLE | PREQUOTE_EXPIRED | PREQUOTE_CONDITIONS_MISMATCH
    | PREQUOTE_REQUOTE_NOT_ALLOWED | DELIVERY_REQUEST_NOT_QUOTABLE | PRICING_REFUSED
    | AUTHORIZED_ACCEPT_REQUIRED | AUTHORIZED_ACCEPT_ORIGIN_REQUIRED | UNAUTHORIZED | FORBIDDEN
    | QUOTE_ALREADY_AUTHORIZED | QUOTE_NOT_ACCEPTABLE | QUOTE_EXPIRED | CUSTOMER_AUTHORIZATION_MISMATCH
    | AUTHORIZED_ACCEPT_SERVICE_UNAVAILABLE | AUTHORIZED_ACCEPT_DISABLED | OPENING_REFUSED

  datatype Receipt = Receipt(resourceId: nat, replayed: bool)
  type Outcome = Result<Receipt, Error>

  /** A key already used: the same request gets its resource back, anything else is refused. */
  function Replay(r: Record, operation: string, resourceType: string, payload: Payload): Outcome {
    if r.hasExecution || r.operation != operation || r.payload != payload || r.resourceType != resourceType
    then Err(IDEMPOTENCY_CONFLICT)
    else Ok(Receipt(r.resourceId, true))
  }

  // ---------------------------------------------------------------- conversion

  const CONVERT := "delivery_prequotes.convert"
  const CONVERSION := "PrequoteConversion"

  predicate Convertible(dto: ConvertDto) {
    && dto.conditionsVersion == 1 && dto.serviceType == "LOCAL_DELIVERY" && dto.goodsPaymentMode == "PREPAID"
    && dto.currency == "MXN" && dto.conditions.Some?
  }

  /** Why an owned prequote cannot be converted now, in check order. */
  function ConversionRefusal(w: World, p: Prequote, dto: ConvertDto, stamped: nat): Option<Error> {
    if p.conversion.Some? then Some(PREQUOTE_ALREADY_CONVERTED)
    else if p.offer.zoneId !in w.activeZones then Some(PREQUOTE_SERVICE_UNAVAILABLE)
    else if w.clock >= p.expiresAt then Some(PREQUOTE_EXPIRED)
    else if dto.conditions != Some(p.conditions) then Some(PREQUOTE_CONDITIONS_MISMATCH)
    else if dto.paidAt > w.clock || dto.orderedAt > w.clock then Some(BAD_REQUEST)
    else if stamped >= p.expiresAt then Some(PREQUOTE_EXPIRED)
    else None
  }

  function Converted(w: World, client: Client, prequote: nat, key: string, stamped: nat): World
    requires prequote in w.prequotes
  {
    var p, id, request, quote := w.prequotes[prequote], w.nextUuid, w.nextUuid + 1, w.nextUuid + 2;
    w.(clock := stamped, nextUuid := w.nextUuid + 3,
       prequotes := w.prequotes[prequote := p.(conversion := Some(id))],
       conversions := w.conversions[id := ConversionRow(prequote, request, quote, client, Key(client, key), stamped)],
       requests := w.requests[request := RequestRow(client, stamped, false, Some(id), Some(quote), None)],
       quotes := w.quotes[quote := QuoteRow(request, p.offer, OFFERED, stamped, p.expiresAt, None, None, None)])
  }

  function ConvertStep(w: World, client: Client, prequote: nat, key: string, dto: ConvertDto, enabled: bool, later: nat)
    : (World, Outcome)
  {
    var stamped := Max(w.clock, later);
    if !Convertible(dto) then (w, Err(BAD_REQUEST))
    else if Key(client, key) in w.records then
      (w, Replay(w.records[Key(client, key)], CONVERT, CONVERSION, ConvertPayload(prequote, dto)))
    else if !enabled then (w, Err(PREQUOTE_CONVERSION_DISABLED))
    else if prequote !in w.prequotes || w.prequotes[prequote].client != client then (w, Err(NOT_FOUND))
    else
      var refusal := ConversionRefusal(w, w.prequotes[prequote], dto, stamped);
      if refusal.Some? then (w, Err(refusal.value))
      else
        (Converted(w, client, prequote, key, stamped).(
           records := w.records[Key(client, key) := Record(CONVERT, CONVERSION, ConvertPayload(prequote, dto), w.nextUuid, false)]),
         Ok(Receipt(w.nextUuid, false)))
  }

  // ---------------------------------------------------------------- the older routes

  function CreateRequestStep(w: World, client: Client): World {
    w.(nextUuid := w.nextUuid + 1, requests := w.requests[w.nextUuid := RequestRow(client, w.clock, false, None, None, None)])
  }

  function SetQuote(w: World, quote: nat, q: QuoteRow, r: RequestRow): World {
    w.(quotes := w.quotes[quote := q], requests := w.requests[q.request := r])
  }

  /** The request's OFFERED quote, if it has one, ends in `status`. */
  function EndOffered(w: World, request: nat, status: QuoteStatus): World
    requires request in w.requests
  {
    var r := w.requests[request];
    if r.offered.None? || r.offered.value !in w.quotes then w
    else
      w.(quotes := w.quotes[r.offered.value := w.quotes[r.offered.value].(status := status)],
         requests := w.requests[request := r.(offered := None)])
  }

  /** Reuses an ACCEPTED quote, then an OFFERED one still valid; otherwise expires the OFFERED one and prices anew. */
  function QuoteStep(w: World, request: nat, client: Client, pricing: Option<Offer>, validityMinutes: nat): (World, Outcome) {
    if request !in w.requests || w.requests[request].client != client then (w, Err(NOT_FOUND))
    else
      var r := w.requests[request];
      if r.conversion.Some? then (w, Err(PREQUOTE_REQUOTE_NOT_ALLOWED))
      else if r.cancelled then (w, Err(DELIVERY_REQUEST_NOT_QUOTABLE))
      else if r.accepted.Some? then (w, Ok(Receipt(r.accepted.value, true)))
      else if r.offered.Some? && r.offered.value in w.quotes && w.quotes[r.offered.value].expiresAt > w.clock then
        (w, Ok(Receipt(r.offered.value, true)))
      else if pricing.None? then (w, Err(PRICING_REFUSED))
      else
        var priced := QuoteRow(request, pricing.value, OFFERED, w.clock, w.clock + validityMinutes * 60000, None, None, None);
        (SetQuote(EndOffered(w, request, EXPIRED), w.nextUuid, priced, r.(offered := Some(w.nextUuid))).(nextUuid := w.nextUuid + 1),
         Ok(Receipt(w.nextUuid, false)))
  }

  /** The quote becomes ACCEPTED and its dispatch opens, at one instant. */
  function AcceptedWorld(w: World, quote: nat, dispatch: nat, acceptance: Option<nat>, now: nat): World
    requires quote in w.quotes && w.quotes[quote].request in w.requests
  {
    var q := w.quotes[quote];
    var r := w.requests[q.request];
    SetQuote(w, quote,
             q.(status := ACCEPTED, acceptedAt := Some(now), dispatch := Some(dispatch), acceptance := acceptance),
             r.(offered := None, accepted := Some(quote)))
      .(dispatches := w.dispatches[dispatch := DispatchRow(q.request, quote, now)])
  }

  function AcceptLegacyStep(w: World, quote: nat, client: Client, opens: bool): (World, Outcome) {
    if quote !in w.quotes || w.quotes[quote].request !in w.requests
       || w.requests[w.quotes[quote].request].client != client
    then (w, Err(NOT_FOUND))
    else
      var q := w.quotes[quote];
      var r := w.requests[q.request];
      if r.conversion.Some? then (w, Err(AUTHORIZED_ACCEPT_REQUIRED))
      else if q.status.ACCEPTED? then (w, Ok(Receipt(quote, true)))
      else if q.status.EXPIRED? then (w, Err(QUOTE_EXPIRED))
      else if q.status.CANCELLED? || r.cancelled then (w, Err(QUOTE_NOT_ACCEPTABLE))
      else if w.clock >= q.expiresAt then
        (SetQuote(w, quote, q.(status := EXPIRED), r.(offered := None)), Err(QUOTE_EXPIRED))
      else if !opens then (w, Err(OPENING_REFUSED))
      else (AcceptedWorld(w, quote, w.nextUuid, None, w.clock).(nextUuid := w.nextUuid + 1), Ok(Receipt(quote, false)))
  }

  function CancelStep(w: World, request: nat): World {
    if request !in w.requests || w.requests[request].cancelled then w
    else
      var offered := w.requests[request].offered;
      var lapsed := offered.Some? && offered.value in w.quotes && w.quotes[offered.value].expiresAt <= w.clock;
      var ended := EndOffered(w, request, if lapsed then EXPIRED else CANCELLED);
      ended.(requests := ended.requests[request := ended.requests[request].(cancelled := true)])
  }

  // ---------------------------------------------------------------- attested acceptance

  const ACCEPT := "delivery_quotes.accept_authorized"
  const ACCEPTANCE := "AuthorizedQuoteAcceptance"

  datatype Credential = Credential(client: Client, active: bool, revoked: bool, expiresAt: Option<nat>, scoped: bool)
  datatype Principal = Principal(
    client: Client, clientActive: bool, credential: Option<Credential>, tokenExpiresAt: nat, tokenScoped: bool)

  predicate KeyOk(key: string) { 8 <= |key| <= 255 && forall i :: 0 <= i < |key| ==> '!' <= key[i] <= '~' }

  predicate Authentic(p: Principal, now: nat) {
    && p.clientActive && p.credential.Some?
    && var c := p.credential.value;
       && c.client == p.client && c.active && !c.revoked && (c.expiresAt.Some? ==> now < c.expiresAt.value)
       && now < p.tokenExpiresAt
  }

  /** Why an owned, converted quote cannot be accepted now, in check order. */
  function AcceptanceRefusal(w: World, quote: nat, p: Principal, z: Authorization, enabled: bool, stamped: nat): Option<Error>
    requires quote in w.quotes && w.quotes[quote].request in w.requests
  {
    var q := w.quotes[quote];
    if !Authentic(p, w.clock) then Some(UNAUTHORIZED)
    else if !p.credential.value.scoped || !p.tokenScoped then Some(FORBIDDEN)
    else if q.acceptance.Some? then Some(QUOTE_ALREADY_AUTHORIZED)
    else if w.requests[q.request].cancelled || q.status.CANCELLED? then Some(QUOTE_NOT_ACCEPTABLE)
    else if q.status.EXPIRED? || q.expiresAt <= w.clock then Some(QUOTE_EXPIRED)
    else if !q.status.OFFERED? then Some(QUOTE_NOT_ACCEPTABLE)
    else if z.quote != quote || z.amount != q.offer.amount || z.currency != q.offer.currency || z.expiresAt != q.expiresAt
    then Some(CUSTOMER_AUTHORIZATION_MISMATCH)
    else if z.authorizedAt < q.createdAt || z.authorizedAt > w.clock then Some(BAD_REQUEST)
    else if q.offer.zoneId !in w.activeZones then Some(AUTHORIZED_ACCEPT_SERVICE_UNAVAILABLE)
    else if !enabled then Some(AUTHORIZED_ACCEPT_DISABLED)
    else if stamped >= q.expiresAt then Some(QUOTE_EXPIRED)
    else if !Authentic(p, stamped) then Some(UNAUTHORIZED)
    else None
  }

  /** Evidence, quote and dispatch are written together. */
  function Authorized(w: World, quote: nat, p: Principal, key: string, z: Authorization, stamped: nat): World
    requires quote in w.quotes && w.quotes[quote].request in w.requests && w.requests[w.quotes[quote].request].conversion.Some?
  {
    var q, id, dispatch := w.quotes[quote], w.nextUuid, w.nextUuid + 1;
    AcceptedWorld(w, quote, dispatch, Some(id), stamped).(
      clock := stamped, nextUuid := w.nextUuid + 2,
      acceptances := w.acceptances[id :=
        AcceptanceRow(w.requests[q.request].conversion.value, q.request, quote, p.client, Key(p.client, key), dispatch, stamped,
                      z.authorizedAt, z.amount, z.currency, q.expiresAt)])
  }

  /** `opens` is the dispatch's own verdict; the switch is read again at the end. */
  function AcceptStep(w: World, quote: nat, p: Principal, key: Option<string>, z: Option<Authorization>,
                      enabled: bool, later: nat, opens: bool, stillEnabled: bool): (World, Outcome)
  {
    var stamped := Max(w.clock, later);
    if quote !in w.quotes || w.quotes[quote].request !in w.requests
       || w.requests[w.quotes[quote].request].client != p.client
    then (w, Err(NOT_FOUND))
    else if w.requests[w.quotes[quote].request].conversion.None? then
      if z.Some? then (w, Err(AUTHORIZED_ACCEPT_ORIGIN_REQUIRED)) else AcceptLegacyStep(w, quote, p.client, opens)
    else if z.None? || key.None? || !KeyOk(key.value) then (w, Err(BAD_REQUEST))
    else if Key(p.client, key.value) in w.records then
      (w, Replay(w.records[Key(p.client, key.value)], ACCEPT, ACCEPTANCE, AcceptPayload(quote, z.value)))
    else
      var refusal := AcceptanceRefusal(w, quote, p, z.value, enabled, stamped);
      if refusal.Some? then (w, Err(refusal.value))
      else if !opens then (w, Err(OPENING_REFUSED))
      else if !stillEnabled then (w, Err(AUTHORIZED_ACCEPT_DISABLED))
      else
        (Authorized(w, quote, p, key.value, z.value, stamped).(
           records := w.records[Key(p.client, key.value) := Record(ACCEPT, ACCEPTANCE, AcceptPayload(quote, z.value), w.nextUuid, false)]),
         Ok(Receipt(w.nextUuid, false)))
  }

  // ---------------------------------------------------------------- runs

  datatype Op =
    | Tick(to: nat)
    | SetZone(zone: nat, active: bool)
    | Publish(published: Prequote)
    | UseKey(client: Client, key: string, operation: string, resourceType: string, body: nat, hasExecution: bool)
    | Convert(client: Client, prequote: nat, key: string, dto: ConvertDto, enabled: bool, later: nat)
    | CreateRequest(client: Client)
    | Quote(request: nat, client: Client, pricing: Option<Offer>, validityMinutes: nat)
    | Accept(quote: nat, principal: Principal, acceptKey: Option<string>, authorization: Option<Authorization>,
             enabled: bool, later: nat, opens: bool, stillEnabled: bool)
    | Cancel(request: nat)

  function PublishStep(w: World, p: Prequote): World {
    w.(nextUuid := w.nextUuid + 1, prequotes := w.prequotes[w.nextUuid := p.(conversion := None)])
  }

  function UseKeyStep(w: World, k: Key, operation: string, resourceType: string, body: nat, hasExecution: bool): World {
    if k in w.records then w
    else w.(nextUuid := w.nextUuid + 1,
            records := w.records[k := Record(operation, resourceType, OtherPayload(body), w.nextUuid, hasExecution)])
  }

  function Apply(w: World, op: Op): World {
    match op
    case Tick(to) => if to < w.clock then w else w.(clock := to)
    case SetZone(zone, active) => w.(activeZones := if active then w.activeZones + {zone} else w.activeZones - {zone})
    case Publish(p) => PublishStep(w, p)
    case UseKey(client, key, operation, resourceType, body, hasExecution) =>
      UseKeyStep(w, Key(client, key), operation, resourceType, body, hasExecution)
    case Convert(client, prequote, key, dto, enabled, later) => ConvertStep(w, client, prequote, key, dto, enabled, later).0
    case CreateRequest(client) => CreateRequestStep(w, client)
    case Quote(request, client, pricing, validity) => QuoteStep(w, request, client, pricing, validity).0
    case Accept(quote, p, key, z, enabled, later, opens, still) => AcceptStep(w, quote, p, key, z, enabled, later, opens, still).0
    case Cancel(request) => CancelStep(w, request)
  }

  function Run(w: World, ops: seq<Op>): World
    decreases |ops|
  {
    if ops == [] then w else Run(Apply(w, ops[0]), ops[1..])
  }

  // ---------------------------------------------------------------- the invariant, row by row

  ghost predicate PrequoteSound(w: World, p: nat)
    requires p in w.prequotes
  {
    p < w.nextUuid &&
    (w.prequotes[p].conversion.Some? ==>
       w.prequotes[p].conversion.value in w.conversions && w.conversions[w.prequotes[p].conversion.value].prequote == p)
  }

  /** A conversion carries its prequote over unchanged, to a request and a quote of its own. */
  ghost predicate ConversionSound(w: World, id: nat)
    requires id in w.conversions
  {
    var c := w.conversions[id];
    && id < w.nextUuid && c.prequote in w.prequotes && c.request in w.requests && c.quote in w.quotes
    && w.prequotes[c.prequote].conversion == Some(id) && w.requests[c.request].conversion == Some(id)
    && var p, q := w.prequotes[c.prequote], w.quotes[c.quote];
       && p.client == c.client == w.requests[c.request].client
       && q.request == c.request && q.offer == p.offer && q.expiresAt == p.expiresAt && q.createdAt == c.convertedAt
       && c.convertedAt < p.expiresAt && c.convertedAt <= w.clock
  }

  ghost predicate RequestSound(w: World, id: nat)
    requires id in w.requests
  {
    var r := w.requests[id];
    && id < w.nextUuid
    && (r.conversion.Some? ==> r.conversion.value in w.conversions && w.conversions[r.conversion.value].request == id)
    && (r.offered.Some? ==>
          r.offered.value in w.quotes && w.quotes[r.offered.value].request == id && w.quotes[r.offered.value].status.OFFERED?)
    && (r.accepted.Some? ==>
          r.accepted.value in w.quotes && w.quotes[r.accepted.value].request == id && w.quotes[r.accepted.value].status.ACCEPTED?)
    && !(r.offered.Some? && r.accepted.Some?)
    && (r.cancelled ==> r.offered.None?)
  }

  ghost predicate QuoteSound(w: World, id: nat)
    requires id in w.quotes
  {
    var q := w.quotes[id];
    && id < w.nextUuid && q.request in w.requests
    && var r := w.requests[q.request];
       && (q.status.OFFERED? ==> r.offered == Some(id))
       && (q.status.ACCEPTED? ==> r.accepted == Some(id))
       && (r.conversion.Some? ==> r.conversion.value in w.conversions && w.conversions[r.conversion.value].quote == id)
       && (q.dispatch.Some? <==> q.status.ACCEPTED?)
       && (q.dispatch.Some? ==> q.dispatch.value in w.dispatches && w.dispatches[q.dispatch.value].quote == id)
       && (q.acceptance.Some? <==> q.status.ACCEPTED? && r.conversion.Some?)
       && (q.acceptance.Some? ==> q.acceptance.value in w.acceptances && w.acceptances[q.acceptance.value].quote == id)
  }

  ghost predicate DispatchSound(w: World, id: nat)
    requires id in w.dispatches
  {
    var d := w.dispatches[id];
    && id < w.nextUuid && d.quote in w.quotes
    && var q := w.quotes[d.quote];
       && q.dispatch == Some(id) && q.request == d.request && q.acceptedAt == Some(d.openedAt) && d.openedAt < q.expiresAt
       && (q.acceptance.Some? ==>
             q.acceptance.value in w.acceptances && w.acceptances[q.acceptance.value].dispatch == id)
  }

  /** The attestation echoes the quote, which echoes the prequote. */
  ghost predicate AcceptanceSound(w: World, id: nat)
    requires id in w.acceptances
  {
    var a := w.acceptances[id];
    && id < w.nextUuid && a.conversion in w.conversions && a.quote in w.quotes
    && var c, q := w.conversions[a.conversion], w.quotes[a.quote];
       && q.acceptance == Some(id) && q.dispatch == Some(a.dispatch) && q.acceptedAt == Some(a.acceptedAt)
       && c.quote == a.quote && c.request == a.request == q.request && c.client == a.client
       && a.acceptedAt < q.expiresAt && q.createdAt <= a.authorizedAt <= a.acceptedAt
       && a.amount == q.offer.amount && a.currency == q.offer.currency && a.expiresAt == q.expiresAt
  }

  /** A key's record leads to what it created, for the client and the object it names. */
  ghost predicate RecordSound(w: World, k: Key)
    requires k in w.records
  {
    var r := w.records[k];
    && (r.payload.ConvertPayload? ==>
          r.resourceId in w.conversions && w.conversions[r.resourceId].prequote == r.payload.prequote
          && w.conversions[r.resourceId].client == k.client && w.conversions[r.resourceId].record == k)
    && (r.payload.AcceptPayload? ==>
          r.resourceId in w.acceptances && w.acceptances[r.resourceId].quote == r.payload.quote
          && w.acceptances[r.resourceId].client == k.client && w.acceptances[r.resourceId].record == k)
  }

  ghost predicate PrequotesSound(w: World) { forall p :: p in w.prequotes ==> PrequoteSound(w, p) }
  ghost predicate ConversionsSound(w: World) { forall c :: c in w.conversions ==> ConversionSound(w, c) }
  ghost predicate RequestsSound(w: World) { forall r :: r in w.requests ==> RequestSound(w, r) }
  ghost predicate QuotesSound(w: World) { forall q :: q in w.quotes ==> QuoteSound(w, q) }
  ghost predicate DispatchesSound(w: World) { forall d :: d in w.dispatches ==> DispatchSound(w, d) }
  ghost predicate AcceptancesSound(w: World) { forall a :: a in w.acceptances ==> AcceptanceSound(w, a) }
  ghost predicate RecordsSound(w: World) { forall k :: k in w.records ==> RecordSound(w, k) }

  ghost predicate Sound(w: World) {
    && PrequotesSound(w) && ConversionsSound(w) && RequestsSound(w) && QuotesSound(w)
    && DispatchesSound(w) && AcceptancesSound(w) && RecordsSound(w)
  }

  lemma FreshIds(w: World, id: nat)
    requires Sound(w) && w.nextUuid <= id
    ensures id !in w.prequotes && id !in w.conversions && id !in w.requests && id !in w.quotes
    ensures id !in w.dispatches && id !in w.acceptances
  {}

  ghost predicate RecordsKept(a: map<Key, Record>, b: map<Key, Record>) { forall k :: k in a ==> k in b && b[k] == a[k] }

  ghost predicate PrequotesKept(a: map<nat, Prequote>, b: map<nat, Prequote>) {
    forall p :: p in a ==>
      p in b && b[p] == a[p].(conversion := b[p].conversion) && (a[p].conversion.Some? ==> b[p] == a[p])
  }

  ghost predicate ConversionsKept(a: map<nat, ConversionRow>, b: map<nat, ConversionRow>) {
    forall c :: c in a ==> c in b && b[c] == a[c]
  }

  ghost predicate RequestsKept(a: map<nat, RequestRow>, b: map<nat, RequestRow>) {
    forall r :: r in a ==> r in b && b[r].conversion == a[r].conversion && b[r].client == a[r].client
  }

  ghost predicate AcceptancesKept(a: map<nat, AcceptanceRow>, b: map<nat, AcceptanceRow>) {
    forall x :: x in a ==> x in b && b[x] == a[x]
  }

  // ---------------------------------------------------------------- conversion keeps it

  lemma ConvertedConversions(w: World, client: Client, prequote: nat, key: string, stamped: nat)
    requires Sound(w) && prequote in w.prequotes && w.prequotes[prequote].client == client
    requires w.prequotes[prequote].conversion.None? && w.clock <= stamped < w.prequotes[prequote].expiresAt
    ensures PrequotesSound(Converted(w, client, prequote, key, stamped))
    ensures ConversionsSound(Converted(w, client, prequote, key, stamped))
  {
    var after := Converted(w, client, prequote, key, stamped);
    FreshIds(w, w.nextUuid);
    FreshIds(w, w.nextUuid + 1);
    FreshIds(w, w.nextUuid + 2);
    forall p | p in after.prequotes ensures PrequoteSound(after, p) { assert PrequoteSound(w, p); }
    forall c | c in after.conversions ensures ConversionSound(after, c) {
      if c in w.conversions { assert ConversionSound(w, c); }
    }
  }

  lemma ConvertedRequests(w: World, client: Client, prequote: nat, key: string, stamped: nat)
    requires Sound(w) && prequote in w.prequotes && w.prequotes[prequote].client == client
    requires w.prequotes[prequote].conversion.None? && w.clock <= stamped < w.prequotes[prequote].expiresAt
    ensures RequestsSound(Converted(w, client, prequote, key, stamped))
    ensures QuotesSound(Converted(w, client, prequote, key, stamped))
  {
    var after := Converted(w, client, prequote, key, stamped);
    FreshIds(w, w.nextUuid);
    FreshIds(w, w.nextUuid + 1);
    FreshIds(w, w.nextUuid + 2);
    forall r | r in after.requests ensures RequestSound(after, r) { if r in w.requests { assert RequestSound(w, r); } }
    forall q | q in after.quotes ensures QuoteSound(after, q) { if q in w.quotes { assert QuoteSound(w, q); } }
  }

  lemma ConvertedRest(w: World, client: Client, prequote: nat, key: string, stamped: nat)
    requires Sound(w) && prequote in w.prequotes && w.prequotes[prequote].client == client
    requires w.prequotes[prequote].conversion.None? && w.clock <= stamped < w.prequotes[prequote].expiresAt
    ensures DispatchesSound(Converted(w, client, prequote, key, stamped))
    ensures AcceptancesSound(Converted(w, client, prequote, key, stamped))
    ensures RecordsSound(Converted(w, client, prequote, key, stamped))
  {
    var after := Converted(w, client, prequote, key, stamped);
    FreshIds(w, w.nextUuid);
    FreshIds(w, w.nextUuid + 1);
    FreshIds(w, w.nextUuid + 2);
    forall d | d in after.dispatches ensures DispatchSound(after, d) { assert DispatchSound(w, d); }
    forall a | a in after.acceptances ensures AcceptanceSound(after, a) { assert AcceptanceSound(w, a); }
    forall k | k in after.records ensures RecordSound(after, k) { assert RecordSound(w, k); }
  }

  lemma ConvertedIsSound(w: World, client: Client, prequote: nat, key: string, stamped: nat)
    requires Sound(w) && prequote in w.prequotes && w.prequotes[prequote].client == client
    requires w.prequotes[prequote].conversion.None? && w.clock <= stamped < w.prequotes[prequote].expiresAt
    ensures Sound(Converted(w, client, prequote, key, stamped))
  {
    ConvertedConversions(w, client, prequote, key, stamped);
    ConvertedRequests(w, client, prequote, key, stamped);
    ConvertedRest(w, client, prequote, key, stamped);
  }

  /** A record may be added for what was just created. */
  lemma RecordedIsSound(w: World, k: Key, r: Record)
    requires Sound(w) && RecordSound(w.(records := w.records[k := r]), k)
    ensures Sound(w.(records := w.records[k := r]))
  {
    var after := w.(records := w.records[k := r]);
    SameTables(w, after);
    forall other | other in after.records ensures RecordSound(after, other) {
      if other != k { assert RecordSound(w, other); }
    }
  }

  /** Nothing but the clock, the zones, the counter and the records moved. */
  lemma SameTables(w: World, after: World)
    requires Sound(w) && w.clock <= after.clock && w.nextUuid <= after.nextUuid
    requires after == w.(clock := after.clock, nextUuid := after.nextUuid, activeZones := after.activeZones, records := after.records)
    ensures PrequotesSound(after) && ConversionsSound(after) && RequestsSound(after) && QuotesSound(after)
            && DispatchesSound(after) && AcceptancesSound(after)
  {
    forall p | p in after.prequotes ensures PrequoteSound(after, p) { assert PrequoteSound(w, p); }
    forall c | c in after.conversions ensures ConversionSound(after, c) { assert ConversionSound(w, c); }
    forall r | r in after.requests ensures RequestSound(after, r) { assert RequestSound(w, r); }
    forall q | q in after.quotes ensures QuoteSound(after, q) { assert QuoteSound(w, q); }
    forall d | d in after.dispatches ensures DispatchSound(after, d) { assert DispatchSound(w, d); }
    forall a | a in after.acceptances ensures AcceptanceSound(after, a) { assert AcceptanceSound(w, a); }
  }

  lemma ConvertIsSound(w: World, client: Client, prequote: nat, key: string, dto: ConvertDto, enabled: bool, later: nat)
    requires Sound(w)
    ensures Sound(ConvertStep(w, client, prequote, key, dto, enabled, later).0)
  {
    var after := ConvertStep(w, client, prequote, key, dto, enabled, later).0;
    if after != w {
      var stamped := Max(w.clock, later);
      ConvertedIsSound(w, client, prequote, key, stamped);
      RecordedIsSound(Converted(w, client, prequote, key, stamped), Key(client, key),
                      Record(CONVERT, CONVERSION, ConvertPayload(prequote, dto), w.nextUuid, false));
    }
  }

  // ---------------------------------------------------------------- quotes

  /** One quote of one request changes or appears, and the request with it. */
  lemma QuoteChangeRequests(w: World, after: World, quote: nat, request: nat)
    requires Sound(w) && request in w.requests && w.nextUuid <= after.nextUuid
    requires quote in after.quotes && request in after.requests
    requires after == w.(nextUuid := after.nextUuid, quotes := w.quotes[quote := after.quotes[quote]],
                         requests := w.requests[request := after.requests[request]])
    requires quote in w.quotes ==>
               && w.quotes[quote].request == request && !w.quotes[quote].status.ACCEPTED?
               && after.quotes[quote] == w.quotes[quote].(status := after.quotes[quote].status)
    requires after.requests[request] == w.requests[request].(
               offered := after.requests[request].offered, cancelled := after.requests[request].cancelled)
    requires w.requests[request].offered.Some? ==> w.requests[request].offered == Some(quote)
    requires RequestSound(after, request) && QuoteSound(after, quote)
    ensures PrequotesSound(after)
    ensures ConversionsSound(after)
    ensures RequestsSound(after)
  {
    forall p | p in after.prequotes ensures PrequoteSound(after, p) { assert PrequoteSound(w, p); }
    forall c | c in after.conversions ensures ConversionSound(after, c) { assert ConversionSound(w, c); }
    forall r | r in after.requests ensures RequestSound(after, r) {
      if r != request { assert RequestSound(w, r); }
    }
  }

  lemma QuoteChangeQuotes(w: World, after: World, quote: nat, request: nat)
    requires Sound(w) && request in w.requests && w.nextUuid <= after.nextUuid
    requires quote in after.quotes && request in after.requests
    requires after == w.(nextUuid := after.nextUuid, quotes := w.quotes[quote := after.quotes[quote]],
                         requests := w.requests[request := after.requests[request]])
    requires quote in w.quotes ==>
               && w.quotes[quote].request == request && !w.quotes[quote].status.ACCEPTED?
               && after.quotes[quote] == w.quotes[quote].(status := after.quotes[quote].status)
    requires after.requests[request] == w.requests[request].(
               offered := after.requests[request].offered, cancelled := after.requests[request].cancelled)
    requires w.requests[request].offered.Some? ==> w.requests[request].offered == Some(quote)
    requires RequestSound(after, request) && QuoteSound(after, quote)
    ensures QuotesSound(after)
  {
    forall q | q in after.quotes ensures QuoteSound(after, q) {
      if q != quote { assert QuoteSound(w, q); }
    }
  }

  lemma QuoteChangeRest(w: World, after: World, quote: nat, request: nat)
    requires Sound(w) && request in w.requests && w.nextUuid <= after.nextUuid
    requires quote in after.quotes && request in after.requests
    requires after == w.(nextUuid := after.nextUuid, quotes := w.quotes[quote := after.quotes[quote]],
                         requests := w.requests[request := after.requests[request]])
    requires quote in w.quotes ==>
               && w.quotes[quote].request == request && !w.quotes[quote].status.ACCEPTED?
               && after.quotes[quote] == w.quotes[quote].(status := after.quotes[quote].status)
    requires after.requests[request] == w.requests[request].(
               offered := after.requests[request].offered, cancelled := after.requests[request].cancelled)
    requires w.requests[request].offered.Some? ==> w.requests[request].offered == Some(quote)
    requires RequestSound(after, request) && QuoteSound(after, quote)
    ensures DispatchesSound(after)
    ensures AcceptancesSound(after)
    ensures RecordsSound(after)
  {
    forall d | d in after.dispatches ensures DispatchSound(after, d) {
      assert DispatchSound(w, d) && QuoteSound(w, w.dispatches[d].quote);
    }
    forall a | a in after.acceptances ensures AcceptanceSound(after, a) {
      assert AcceptanceSound(w, a) && QuoteSound(w, w.acceptances[a].quote);
    }
    forall k | k in after.records ensures RecordSound(after, k) { assert RecordSound(w, k); }
  }

  lemma QuoteChangeIsSound(w: World, after: World, quote: nat, request: nat)
    requires Sound(w) && request in w.requests && w.nextUuid <= after.nextUuid
    requires quote in after.quotes && request in after.requests
    requires after == w.(nextUuid := after.nextUuid, quotes := w.quotes[quote := after.quotes[quote]],
                         requests := w.requests[request := after.requests[request]])
    requires quote in w.quotes ==>
               && w.quotes[quote].request == request && !w.quotes[quote].status.ACCEPTED?
               && after.quotes[quote] == w.quotes[quote].(status := after.quotes[quote].status)
    requires after.requests[request] == w.requests[request].(
               offered := after.requests[request].offered, cancelled := after.requests[request].cancelled)
    requires w.requests[request].offered.Some? ==> w.requests[request].offered == Some(quote)
    requires RequestSound(after, request) && QuoteSound(after, quote)
    ensures Sound(after)
  {
    QuoteChangeRequests(w, after, quote, request);
    QuoteChangeQuotes(w, after, quote, request);
    QuoteChangeRest(w, after, quote, request);
  }

  lemma EndOfferedIsSound(w: World, request: nat, status: QuoteStatus)
    requires Sound(w) && request in w.requests && (status.EXPIRED? || status.CANCELLED?)
    ensures var after := EndOffered(w, request, status);
            Sound(after) && request in after.requests && after.requests[request] == w.requests[request].(offered := None)
            && after.nextUuid == w.nextUuid
  {
    var r := w.requests[request];
    assert RequestSound(w, request);
    if r.offered.Some? {
      assert QuoteSound(w, r.offered.value);
      QuoteChangeIsSound(w, EndOffered(w, request, status), r.offered.value, request);
    }
  }

  lemma QuoteIsSound(w: World, request: nat, client: Client, pricing: Option<Offer>, validityMinutes: nat)
    requires Sound(w)
    ensures Sound(QuoteStep(w, request, client, pricing, validityMinutes).0)
  {
    var after := QuoteStep(w, request, client, pricing, validityMinutes).0;
    if after != w {
      EndOfferedIsSound(w, request, EXPIRED);
      var ended := EndOffered(w, request, EXPIRED);
      FreshIds(ended, w.nextUuid);
      assert RequestSound(ended, request);
      QuoteChangeIsSound(ended, after, w.nextUuid, request);
    }
  }

  /** A request row is added, or flagged, in ways no other row can see. */
  ghost predicate RequestsPatched(w: World, after: World, request: nat) {
    && w.nextUuid <= after.nextUuid && request in after.requests
    && after == w.(requests := w.requests[request := after.requests[request]], nextUuid := after.nextUuid)
    && (request in w.requests ==> after.requests[request] == w.requests[request].(cancelled := after.requests[request].cancelled))
  }

  lemma PatchKeepsQuotes(w: World, after: World, request: nat)
    requires Sound(w) && RequestsPatched(w, after, request)
    ensures PrequotesSound(after) && ConversionsSound(after) && QuotesSound(after)
  {
    forall p | p in after.prequotes ensures PrequoteSound(after, p) { assert PrequoteSound(w, p); }
    forall c | c in after.conversions ensures ConversionSound(after, c) { assert ConversionSound(w, c); }
    forall q | q in after.quotes ensures QuoteSound(after, q) { assert QuoteSound(w, q); }
  }

  lemma PatchKeepsRest(w: World, after: World, request: nat)
    requires Sound(w) && RequestsPatched(w, after, request) && RequestSound(after, request)
    ensures RequestsSound(after) && DispatchesSound(after) && AcceptancesSound(after) && RecordsSound(after)
  {
    forall r | r in after.requests ensures RequestSound(after, r) { if r != request { assert RequestSound(w, r); } }
    forall d | d in after.dispatches ensures DispatchSound(after, d) { assert DispatchSound(w, d); }
    forall a | a in after.acceptances ensures AcceptanceSound(after, a) { assert AcceptanceSound(w, a); }
    RecordsStay(w, after);
  }

  lemma CancelIsSound(w: World, request: nat)
    requires Sound(w)
    ensures Sound(CancelStep(w, request))
  {
    if CancelStep(w, request) != w {
      EndOfferedIsSound(w, request, EXPIRED);
      EndOfferedIsSound(w, request, CANCELLED);
      var offered := w.requests[request].offered;
      var lapsed := offered.Some? && offered.value in w.quotes && w.quotes[offered.value].expiresAt <= w.clock;
      var ended := EndOffered(w, request, if lapsed then EXPIRED else CANCELLED);
      assert RequestSound(ended, request);
      PatchKeepsQuotes(ended, CancelStep(w, request), request);
      PatchKeepsRest(ended, CancelStep(w, request), request);
    }
  }

  // ---------------------------------------------------------------- acceptances

  /** What an acceptance writes: its quote, the quote's request, one dispatch, and its evidence if it needs one. */
  ghost predicate Accepting(w: World, after: World, quote: nat, dispatch: nat, acceptance: Option<nat>, now: nat) {
    && (quote in w.quotes && w.quotes[quote].status.OFFERED? && w.quotes[quote].request in w.requests)
    && (w.nextUuid <= dispatch < after.nextUuid && now < w.quotes[quote].expiresAt && w.clock <= after.clock)
    && (w.requests[w.quotes[quote].request].conversion.Some? <==> acceptance.Some?)
    && (acceptance.Some? ==> w.nextUuid <= acceptance.value)
    && (after.prequotes == w.prequotes && after.conversions == w.conversions && after.records == w.records)
    && (after.quotes == w.quotes[quote := w.quotes[quote].(
               status := ACCEPTED, acceptedAt := Some(now), dispatch := Some(dispatch), acceptance := acceptance)])
    && (after.requests == w.requests[w.quotes[quote].request :=
               w.requests[w.quotes[quote].request].(offered := None, accepted := Some(quote))])
    && (after.dispatches == w.dispatches[dispatch := DispatchRow(w.quotes[quote].request, quote, now)])
    && (acceptance.None? ==> after.acceptances == w.acceptances)
    && (acceptance.Some? ==>
               acceptance.value in after.acceptances
               && after.acceptances == w.acceptances[acceptance.value := after.acceptances[acceptance.value]]
               && AcceptanceSound(after, acceptance.value)
               && after.acceptances[acceptance.value].dispatch == dispatch && after.acceptances[acceptance.value].quote == quote)
  }

  /** The rows an acceptance writes, sound one by one. */
  lemma AcceptedOrigins(w: World, after: World, quote: nat, dispatch: nat, acceptance: Option<nat>, now: nat)
    requires PrequotesSound(w) && ConversionsSound(w) && Accepting(w, after, quote, dispatch, acceptance, now)
    ensures PrequotesSound(after) && ConversionsSound(after)
  {
    forall p | p in after.prequotes ensures PrequoteSound(after, p) { assert PrequoteSound(w, p); }
    forall c | c in after.conversions ensures ConversionSound(after, c) { assert ConversionSound(w, c); }
  }

  lemma AcceptedRequests(w: World, after: World, quote: nat, dispatch: nat, acceptance: Option<nat>, now: nat)
    requires quote in w.quotes && RequestsSound(w) && QuoteSound(w, quote) && Accepting(w, after, quote, dispatch, acceptance, now)
    ensures RequestsSound(after)
  {
    assert RequestSound(w, w.quotes[quote].request);
    forall r | r in after.requests ensures RequestSound(after, r) { assert RequestSound(w, r); }
  }

  lemma AcceptedQuotes(w: World, after: World, quote: nat, dispatch: nat, acceptance: Option<nat>, now: nat)
    requires Sound(w) && Accepting(w, after, quote, dispatch, acceptance, now)
    ensures QuotesSound(after)
  {
    var request := w.quotes[quote].request;
    assert QuoteSound(w, quote) && RequestSound(w, request);
    forall q | q in after.quotes ensures QuoteSound(after, q) { assert QuoteSound(w, q); }
  }

  ghost predicate OtherQuotesSame(w: World, after: World, quote: nat) {
    forall q :: q in w.quotes && q != quote ==> q in after.quotes && after.quotes[q] == w.quotes[q]
  }

  /** Every dispatch of another quote reads as before; `dispatch` is the one just opened. */
  lemma DispatchesStay(w: World, after: World, quote: nat, dispatch: nat)
    requires DispatchesSound(w) && quote in w.quotes && w.quotes[quote].dispatch.None? && w.nextUuid <= after.nextUuid
    requires OtherQuotesSame(w, after, quote) && AcceptancesKept(w.acceptances, after.acceptances)
    requires dispatch in after.dispatches && after.dispatches == w.dispatches[dispatch := after.dispatches[dispatch]]
    requires DispatchSound(after, dispatch)
    ensures DispatchesSound(after)
  {
    forall d | d in after.dispatches ensures DispatchSound(after, d) { if d != dispatch { assert DispatchSound(w, d); } }
  }

  lemma AcceptancesStay(w: World, after: World, quote: nat, acceptance: Option<nat>)
    requires AcceptancesSound(w) && quote in w.quotes && w.quotes[quote].acceptance.None? && w.nextUuid <= after.nextUuid
    requires OtherQuotesSame(w, after, quote) && after.conversions == w.conversions
    requires AcceptancesKept(w.acceptances, after.acceptances)
    requires forall a :: a in after.acceptances && a !in w.acceptances ==> Some(a) == acceptance && AcceptanceSound(after, a)
    ensures AcceptancesSound(after)
  {
    forall a | a in after.acceptances ensures AcceptanceSound(after, a) { if a in w.acceptances { assert AcceptanceSound(w, a); } }
  }

  lemma RecordsStay(w: World, after: World)
    requires RecordsSound(w) && after.records == w.records && after.conversions == w.conversions
    requires AcceptancesKept(w.acceptances, after.acceptances)
    ensures RecordsSound(after)
  {
    forall k | k in after.records ensures RecordSound(after, k) { assert RecordSound(w, k); }
  }

  lemma AcceptedLast(w: World, after: World, quote: nat, dispatch: nat, acceptance: Option<nat>, now: nat)
    requires DispatchesSound(w) && AcceptancesSound(w) && RecordsSound(w)
    requires Accepting(w, after, quote, dispatch, acceptance, now) && QuoteSound(w, quote)
    requires dispatch !in w.dispatches && (acceptance.Some? ==> acceptance.value !in w.acceptances)
    ensures DispatchesSound(after) && AcceptancesSound(after) && RecordsSound(after)
  {
    DispatchesStay(w, after, quote, dispatch);
    AcceptancesStay(w, after, quote, acceptance);
    RecordsStay(w, after);
  }

  lemma AcceptedIsSound(w: World, after: World, quote: nat, dispatch: nat, acceptance: Option<nat>, now: nat)
    requires Sound(w) && Accepting(w, after, quote, dispatch, acceptance, now)
    ensures Sound(after)
  {
    assert QuoteSound(w, quote);
    AcceptedOrigins(w, after, quote, dispatch, acceptance, now);
    AcceptedRequests(w, after, quote, dispatch, acceptance, now);
    AcceptedQuotes(w, after, quote, dispatch, acceptance, now);
    FreshIds(w, dispatch);
    if acceptance.Some? { FreshIds(w, acceptance.value); }
    AcceptedLast(w, after, quote, dispatch, acceptance, now);
  }

  lemma AcceptLegacyIsSound(w: World, quote: nat, client: Client, opens: bool)
    requires Sound(w)
    ensures Sound(AcceptLegacyStep(w, quote, client, opens).0)
  {
    var (after, r) := AcceptLegacyStep(w, quote, client, opens);
    if after != w {
      var request := w.quotes[quote].request;
      assert QuoteSound(w, quote) && RequestSound(w, request);
      if r.Err? {
        QuoteChangeIsSound(w, after, quote, request);
      } else {
        AcceptedIsSound(w, after, quote, w.nextUuid, None, w.clock);
      }
    }
  }

  lemma AuthorizedIsSound(w: World, quote: nat, p: Principal, key: string, z: Authorization, stamped: nat)
    requires Sound(w) && quote in w.quotes && w.quotes[quote].request in w.requests && w.clock <= stamped
    requires w.requests[w.quotes[quote].request].conversion.Some? && w.requests[w.quotes[quote].request].client == p.client
    requires AcceptanceRefusal(w, quote, p, z, true, stamped).None?
    ensures Sound(Authorized(w, quote, p, key, z, stamped))
  {
    var after := Authorized(w, quote, p, key, z, stamped);
    assert QuoteSound(w, quote) && RequestSound(w, w.quotes[quote].request);
    assert ConversionSound(w, w.requests[w.quotes[quote].request].conversion.value);
    AcceptedIsSound(w, after, quote, w.nextUuid + 1, Some(w.nextUuid), stamped);
  }

  lemma AcceptIsSound(w: World, quote: nat, p: Principal, key: Option<string>, z: Option<Authorization>,
                      enabled: bool, later: nat, opens: bool, stillEnabled: bool)
    requires Sound(w)
    ensures Sound(AcceptStep(w, quote, p, key, z, enabled, later, opens, stillEnabled).0)
  {
    var after := AcceptStep(w, quote, p, key, z, enabled, later, opens, stillEnabled).0;
    if after != w {
      if w.requests[w.quotes[quote].request].conversion.None? {
        AcceptLegacyIsSound(w, quote, p.client, opens);
      } else {
        var stamped := Max(w.clock, later);
        AuthorizedIsSound(w, quote, p, key.value, z.value, stamped);
        RecordedIsSound(Authorized(w, quote, p, key.value, z.value, stamped), Key(p.client, key.value),
                        Record(ACCEPT, ACCEPTANCE, AcceptPayload(quote, z.value), w.nextUuid, false));
      }
    }
  }

  // ---------------------------------------------------------------- every step

  lemma PublishIsSound(w: World, p: Prequote)
    requires Sound(w)
    ensures Sound(PublishStep(w, p))
  {
    var after := PublishStep(w, p);
    FreshIds(w, w.nextUuid);
    forall x | x in after.prequotes ensures PrequoteSound(after, x) { if x != w.nextUuid { assert PrequoteSound(w, x); } }
    forall c | c in after.conversions ensures ConversionSound(after, c) { assert ConversionSound(w, c); }
    forall r | r in after.requests ensures RequestSound(after, r) { assert RequestSound(w, r); }
    forall q | q in after.quotes ensures QuoteSound(after, q) { assert QuoteSound(w, q); }
    forall d | d in after.dispatches ensures DispatchSound(after, d) { assert DispatchSound(w, d); }
    forall a | a in after.acceptances ensures AcceptanceSound(after, a) { assert AcceptanceSound(w, a); }
    forall k | k in after.records ensures RecordSound(after, k) { assert RecordSound(w, k); }
  }

  lemma SettingsAreSound(w: World, after: World)
    requires Sound(w) && w.clock <= after.clock
    requires after == w.(clock := after.clock, activeZones := after.activeZones)
    ensures Sound(after)
  {
    SameTables(w, after);
    forall k | k in after.records ensures RecordSound(after, k) { assert RecordSound(w, k); }
  }

  lemma UseKeyIsSound(w: World, k: Key, operation: string, resourceType: string, body: nat, hasExecution: bool)
    requires Sound(w)
    ensures Sound(UseKeyStep(w, k, operation, resourceType, body, hasExecution))
  {
    var after := UseKeyStep(w, k, operation, resourceType, body, hasExecution);
    if after != w {
      SameTables(w, after);
      forall other | other in after.records ensures RecordSound(after, other) { if other != k { assert RecordSound(w, other); } }
    }
  }

  lemma CreateRequestIsSound(w: World, client: Client)
    requires Sound(w)
    ensures Sound(CreateRequestStep(w, client))
  {
    FreshIds(w, w.nextUuid);
    PatchKeepsQuotes(w, CreateRequestStep(w, client), w.nextUuid);
    PatchKeepsRest(w, CreateRequestStep(w, client), w.nextUuid);
  }

  lemma StepIsSound(w: World, op: Op)
    requires Sound(w)
    ensures Sound(Apply(w, op))
  {
    match op
    case Convert(client, prequote, key, dto, enabled, later) => ConvertIsSound(w, client, prequote, key, dto, enabled, later);
    case CreateRequest(client) => CreateRequestIsSound(w, client);
    case Quote(request, client, pricing, validity) => QuoteIsSound(w, request, client, pricing, validity);
    case Accept(quote, p, key, z, enabled, later, opens, still) =>
      AcceptIsSound(w, quote, p, key, z, enabled, later, opens, still);
    case Cancel(request) => CancelIsSound(w, request);
    case Publish(p) => PublishIsSound(w, p);
    case UseKey(client, key, operation, resourceType, body, hasExecution) =>
      UseKeyIsSound(w, Key(client, key), operation, resourceType, body, hasExecution);
    case Tick(_) => SettingsAreSound(w, Apply(w, op));
    case SetZone(_, _) => SettingsAreSound(w, Apply(w, op));
  }

  lemma {:induction false} RunIsSound(w: World, ops: seq<Op>)
    requires Sound(w)
    ensures Sound(Run(w, ops))
    decreases |ops|
  {
    if ops != [] {
      StepIsSound(w, ops[0]);
      RunIsSound(Apply(w, ops[0]), ops[1..]);
    }
  }

  // ---------------------------------------------------------------- main results

  /** The prequote a request was converted from, if any. */
  function OriginOf(w: World, request: nat): Option<nat> {
    if request !in w.requests then None
    else
      var c := w.requests[request].conversion;
      if c.None? || c.value !in w.conversions then None else Some(w.conversions[c.value].prequote)
  }

  function ConversionsOf(w: World, p: nat): set<nat> { set c | c in w.conversions && w.conversions[c].prequote == p }
  function RequestsOf(w: World, p: nat): set<nat> { set r | r in w.requests && OriginOf(w, r) == Some(p) }
  function QuotesOf(w: World, p: nat): set<nat> { set q | q in w.quotes && OriginOf(w, w.quotes[q].request) == Some(p) }
  function AcceptancesOf(w: World, p: nat): set<nat> {
    set a | a in w.acceptances && OriginOf(w, w.acceptances[a].request) == Some(p)
  }
  function DispatchesOf(w: World, p: nat): set<nat> {
    set d | d in w.dispatches && OriginOf(w, w.dispatches[d].request) == Some(p)
  }

  lemma AtMostOne(s: set<nat>)
    requires forall x, y :: x in s && y in s ==> x == y
    ensures |s| <= 1
  {
    if s != {} {
      var x :| x in s;
      assert s == {x};
    }
  }

  /** Everything that descends from a prequote hangs from its single conversion. */
  lemma Descent(w: World, p: nat, request: nat)
    requires Sound(w) && OriginOf(w, request) == Some(p)
    ensures p in w.prequotes && w.prequotes[p].conversion.Some?
    ensures var c := w.prequotes[p].conversion.value; c in w.conversions && w.conversions[c].request == request
  {
    var c := w.requests[request].conversion.value;
    assert RequestSound(w, request) && ConversionSound(w, c);
  }

  /** After any run, a prequote has at most one conversion, request, quote, authorised acceptance and dispatch. */
  lemma OnePathPerPrequote(ops: seq<Op>, p: nat)
    ensures var w := Run(START, ops);
            && |ConversionsOf(w, p)| <= 1 && |RequestsOf(w, p)| <= 1 && |QuotesOf(w, p)| <= 1
            && |AcceptancesOf(w, p)| <= 1 && |DispatchesOf(w, p)| <= 1
  {
    RunIsSound(START, ops);
    var w := Run(START, ops);
    ConversionsAndRequestsAreOne(w, p);
    QuotesAreOne(w, p);
    AcceptancesAndDispatchesAreOne(w, p);
  }

  lemma ConversionsAndRequestsAreOne(w: World, p: nat)
    requires Sound(w)
    ensures |ConversionsOf(w, p)| <= 1 && |RequestsOf(w, p)| <= 1
  {
    forall x | x in ConversionsOf(w, p) ensures p in w.prequotes && w.prequotes[p].conversion == Some(x) {
      assert ConversionSound(w, x);
    }
    AtMostOne(ConversionsOf(w, p));
    forall x, y | x in RequestsOf(w, p) && y in RequestsOf(w, p) ensures x == y {
      Descent(w, p, x);
      Descent(w, p, y);
    }
    AtMostOne(RequestsOf(w, p));
  }

  lemma QuoteOfOrigin(w: World, p: nat, q: nat)
    requires Sound(w) && q in w.quotes && OriginOf(w, w.quotes[q].request) == Some(p)
    ensures p in w.prequotes && w.prequotes[p].conversion.Some?
    ensures var c := w.prequotes[p].conversion.value; c in w.conversions && w.conversions[c].quote == q
  {
    Descent(w, p, w.quotes[q].request);
    assert QuoteSound(w, q);
    assert ConversionSound(w, w.prequotes[p].conversion.value);
  }

  lemma QuotesAreOne(w: World, p: nat)
    requires Sound(w)
    ensures |QuotesOf(w, p)| <= 1
  {
    forall x, y | x in QuotesOf(w, p) && y in QuotesOf(w, p) ensures x == y {
      QuoteOfOrigin(w, p, x);
      QuoteOfOrigin(w, p, y);
    }
    AtMostOne(QuotesOf(w, p));
  }

  lemma AcceptancesAndDispatchesAreOne(w: World, p: nat)
    requires Sound(w)
    ensures |AcceptancesOf(w, p)| <= 1 && |DispatchesOf(w, p)| <= 1
  {
    forall x, y | x in AcceptancesOf(w, p) && y in AcceptancesOf(w, p) ensures x == y {
      assert AcceptanceSound(w, x) && AcceptanceSound(w, y);
      QuoteOfOrigin(w, p, w.acceptances[x].quote);
      QuoteOfOrigin(w, p, w.acceptances[y].quote);
    }
    AtMostOne(AcceptancesOf(w, p));
    forall x, y | x in DispatchesOf(w, p) && y in DispatchesOf(w, p) ensures x == y {
      assert DispatchSound(w, x) && DispatchSound(w, y);
      QuoteOfOrigin(w, p, w.dispatches[x].quote);
      QuoteOfOrigin(w, p, w.dispatches[y].quote);
    }
    AtMostOne(DispatchesOf(w, p));
  }

  /**
   * What was accepted is what was published: amount, currency, route and expiry of the prequote, for its
   * own client, with the clock before the original expiry at the conversion and again at the acceptance.
   */
  lemma AcceptedTermsArePublished(ops: seq<Op>, a: nat)
    ensures var w := Run(START, ops);
            a in w.acceptances ==>
              var row := w.acceptances[a];
              && row.conversion in w.conversions && row.quote in w.quotes && row.dispatch in w.dispatches
              && var c, q, d := w.conversions[row.conversion], w.quotes[row.quote], w.dispatches[row.dispatch];
                 && c.prequote in w.prequotes
                 && var p := w.prequotes[c.prequote];
                    && row.client == c.client == p.client
                    && q.offer == p.offer && row.amount == p.offer.amount && row.currency == p.offer.currency
                    && row.expiresAt == q.expiresAt == p.expiresAt
                    && c.convertedAt < p.expiresAt && row.acceptedAt < p.expiresAt
                    && c.convertedAt <= row.authorizedAt <= row.acceptedAt
                    && d == DispatchRow(row.request, row.quote, row.acceptedAt) && q.status.ACCEPTED?
  {
    RunIsSound(START, ops);
    var w := Run(START, ops);
    if a in w.acceptances {
      assert AcceptanceSound(w, a);
      var row := w.acceptances[a];
      assert ConversionSound(w, row.conversion);
      assert QuoteSound(w, row.quote);
      assert DispatchSound(w, row.dispatch);
    }
  }

  /** A converted request's dispatch exists only with the acceptance that names it. */
  lemma DispatchesNeedTheirAcceptance(ops: seq<Op>, d: nat)
    ensures var w := Run(START, ops);
            d in w.dispatches && OriginOf(w, w.dispatches[d].request).Some? ==>
              exists a :: a in w.acceptances && w.acceptances[a].dispatch == d && w.acceptances[a].request == w.dispatches[d].request
  {
    RunIsSound(START, ops);
    var w := Run(START, ops);
    if d in w.dispatches && OriginOf(w, w.dispatches[d].request).Some? {
      assert DispatchSound(w, d);
      var q := w.dispatches[d].quote;
      assert QuoteSound(w, q);
      var a := w.quotes[q].acceptance.value;
      assert AcceptanceSound(w, a);
      assert w.acceptances[a].dispatch == d;
    }
  }

  predicate Open(q: QuoteRow) { q.status.OFFERED? || q.status.ACCEPTED? }

  /** Converted or not, a request has at most one quote that is OFFERED or ACCEPTED, and at most one dispatch. */
  lemma OneOpenQuoteAndOneDispatch(ops: seq<Op>, q1: nat, q2: nat, d1: nat, d2: nat)
    ensures var w := Run(START, ops);
            && (q1 in w.quotes && q2 in w.quotes && w.quotes[q1].request == w.quotes[q2].request ==>
                  Open(w.quotes[q1]) && Open(w.quotes[q2]) ==> q1 == q2)
            && (d1 in w.dispatches && d2 in w.dispatches && w.dispatches[d1].request == w.dispatches[d2].request ==> d1 == d2)
  {
    RunIsSound(START, ops);
    var w := Run(START, ops);
    if q1 in w.quotes && q2 in w.quotes {
      assert QuoteSound(w, q1) && QuoteSound(w, q2) && RequestSound(w, w.quotes[q1].request);
    }
    if d1 in w.dispatches && d2 in w.dispatches {
      assert DispatchSound(w, d1) && DispatchSound(w, d2);
      assert QuoteSound(w, w.dispatches[d1].quote) && QuoteSound(w, w.dispatches[d2].quote);
    }
  }

  // ---------------------------------------------------------------- what no later step undoes

  /** Rows that are final, fields that never change, and records that are never removed. */
  ghost predicate Kept(w: World, later: World) {
    && RecordsKept(w.records, later.records) && PrequotesKept(w.prequotes, later.prequotes)
    && ConversionsKept(w.conversions, later.conversions) && RequestsKept(w.requests, later.requests)
    && AcceptancesKept(w.acceptances, later.acceptances)
  }

  /** A step that leaves all but one kind of row alone. */
  lemma RequestsOnly(w: World, after: World)
    requires after.records == w.records && after.prequotes == w.prequotes && after.conversions == w.conversions
    requires after.acceptances == w.acceptances && RequestsKept(w.requests, after.requests)
    ensures Kept(w, after)
  {}

  lemma ConvertedIsKept(w: World, client: Client, prequote: nat, key: string, stamped: nat)
    requires prequote in w.prequotes && w.prequotes[prequote].conversion.None?
    requires w.nextUuid !in w.conversions && w.nextUuid + 1 !in w.requests
    ensures Kept(w, Converted(w, client, prequote, key, stamped))
  {}

  lemma ConvertIsKept(w: World, client: Client, prequote: nat, key: string, dto: ConvertDto, enabled: bool, later: nat)
    requires w.nextUuid !in w.conversions && w.nextUuid + 1 !in w.requests
    ensures Kept(w, ConvertStep(w, client, prequote, key, dto, enabled, later).0)
  {
    var after := ConvertStep(w, client, prequote, key, dto, enabled, later).0;
    if after != w {
      var middle := Converted(w, client, prequote, key, Max(w.clock, later));
      ConvertedIsKept(w, client, prequote, key, Max(w.clock, later));
      assert after == middle.(records := after.records) && RecordsKept(w.records, after.records);
    }
  }

  lemma AcceptLegacyIsKept(w: World, quote: nat, client: Client, opens: bool)
    ensures Kept(w, AcceptLegacyStep(w, quote, client, opens).0)
  {
    var after := AcceptLegacyStep(w, quote, client, opens).0;
    if after != w { RequestsOnly(w, after); }
  }

  lemma AcceptIsKept(w: World, quote: nat, p: Principal, key: Option<string>, z: Option<Authorization>,
                     enabled: bool, later: nat, opens: bool, stillEnabled: bool)
    requires w.nextUuid !in w.acceptances
    ensures Kept(w, AcceptStep(w, quote, p, key, z, enabled, later, opens, stillEnabled).0)
  {
    AcceptLegacyIsKept(w, quote, p.client, opens);
  }

  lemma QuoteIsKept(w: World, request: nat, client: Client, pricing: Option<Offer>, validityMinutes: nat)
    ensures Kept(w, QuoteStep(w, request, client, pricing, validityMinutes).0)
  {
    var after := QuoteStep(w, request, client, pricing, validityMinutes).0;
    if after != w { RequestsOnly(w, after); }
  }

  lemma CancelIsKept(w: World, request: nat)
    ensures Kept(w, CancelStep(w, request))
  {
    var after := CancelStep(w, request);
    if after != w { RequestsOnly(w, after); }
  }

  lemma SettingsAreKept(w: World, after: World)
    requires after == w.(clock := after.clock, activeZones := after.activeZones)
    ensures Kept(w, after)
  {}

  lemma PublishIsKept(w: World, p: Prequote)
    requires w.nextUuid !in w.prequotes
    ensures Kept(w, PublishStep(w, p))
  {}

  lemma UseKeyIsKept(w: World, k: Key, operation: string, resourceType: string, body: nat, hasExecution: bool)
    ensures Kept(w, UseKeyStep(w, k, operation, resourceType, body, hasExecution))
  {}

  lemma StepIsKept(w: World, op: Op)
    requires Sound(w)
    ensures Kept(w, Apply(w, op))
  {
    FreshIds(w, w.nextUuid);
    FreshIds(w, w.nextUuid + 1);
    match op
    case Convert(client, prequote, key, dto, enabled, later) => ConvertIsKept(w, client, prequote, key, dto, enabled, later);
    case Accept(quote, p, key, z, enabled, later, opens, still) =>
      AcceptIsKept(w, quote, p, key, z, enabled, later, opens, still);
    case Quote(request, client, pricing, validity) => QuoteIsKept(w, request, client, pricing, validity);
    case Cancel(request) => CancelIsKept(w, request);
    case Tick(_) => SettingsAreKept(w, Apply(w, op));
    case SetZone(_, _) => SettingsAreKept(w, Apply(w, op));
    case Publish(p) => PublishIsKept(w, p);
    case UseKey(client, key, operation, resourceType, body, hasExecution) =>
      UseKeyIsKept(w, Key(client, key), operation, resourceType, body, hasExecution);
    case CreateRequest(client) => RequestsOnly(w, CreateRequestStep(w, client));
  }

  lemma {:induction false} RunIsKept(w: World, ops: seq<Op>)
    requires Sound(w)
    ensures Kept(w, Run(w, ops))
    decreases |ops|
  {
    if ops != [] {
      StepIsSound(w, ops[0]);
      StepIsKept(w, ops[0]);
      RunIsKept(Apply(w, ops[0]), ops[1..]);
      KeptTwice(w, Apply(w, ops[0]), Run(w, ops));
    }
  }

  lemma KeptTwice(w: World, middle: World, later: World)
    requires Kept(w, middle) && Kept(middle, later)
    ensures Kept(w, later)
  {}

  /**
   * Once a request came from a prequote, whatever happens next, the older routes refuse it and write
   * nothing.
   */
  lemma OlderRoutesNeverTouchAConversion(w: World, ops: seq<Op>, request: nat, client: Client, pricing: Option<Offer>,
                                         validityMinutes: nat, quote: nat, opens: bool)
    requires Sound(w) && OriginOf(w, request).Some?
    ensures var later := Run(w, ops);
            && QuoteStep(later, request, client, pricing, validityMinutes).0 == later
            && QuoteStep(later, request, client, pricing, validityMinutes).1.Err?
            && (quote in later.quotes && later.quotes[quote].request == request ==>
                  && AcceptLegacyStep(later, quote, client, opens).0 == later
                  && AcceptLegacyStep(later, quote, client, opens).1.Err?)
  {
    RunIsKept(w, ops);
  }

  /**
   * A conversion can be repeated with its key at any time, for the same answer and nothing written; and
   * with no other key, whatever that key was or was not used for.
   */
  lemma ConversionHappensOnce(w: World, ops: seq<Op>, client: Client, prequote: nat, key: string, dto: ConvertDto, later: nat,
                              caller: Client, other: string, otherDto: ConvertDto, enabled: bool, at: nat)
    requires Sound(w) && ConvertStep(w, client, prequote, key, dto, true, later).1.Ok?
    requires !ConvertStep(w, client, prequote, key, dto, true, later).1.value.replayed
    ensures var (done, first) := ConvertStep(w, client, prequote, key, dto, true, later);
            var end := Run(done, ops);
            && ConvertStep(end, client, prequote, key, dto, enabled, at) == (end, Ok(Receipt(first.value.resourceId, true)))
            && (Key(caller, other) != Key(client, key) ==>
                  && ConvertStep(end, caller, prequote, other, otherDto, enabled, at).0 == end
                  && ConvertStep(end, caller, prequote, other, otherDto, enabled, at).1.Err?)
  {
    var done := ConvertStep(w, client, prequote, key, dto, true, later).0;
    ConvertIsSound(w, client, prequote, key, dto, true, later);
    RunIsSound(done, ops);
    RunIsKept(done, ops);
    var end := Run(done, ops);
    assert end.records[Key(client, key)] == done.records[Key(client, key)];
    assert end.prequotes[prequote] == done.prequotes[prequote];
    if Key(caller, other) != Key(client, key) { OtherKeysAreRefused(end, prequote, caller, other, otherDto, enabled, at); }
  }

  lemma SameOrigin(w: World, c: nat, d: nat)
    requires ConversionsSound(w) && c in w.conversions && d in w.conversions
    ensures w.conversions[c].prequote == w.conversions[d].prequote ==> c == d
  {
    assert ConversionSound(w, c) && ConversionSound(w, d);
  }

  /** Of a converted prequote, only the key it was converted under is answered. */
  lemma OtherKeysAreRefused(w: World, prequote: nat, caller: Client, other: string, dto: ConvertDto, enabled: bool, at: nat)
    requires Sound(w) && prequote in w.prequotes && w.prequotes[prequote].conversion.Some?
    requires PrequoteSound(w, prequote) && Key(caller, other) != w.conversions[w.prequotes[prequote].conversion.value].record
    ensures ConvertStep(w, caller, prequote, other, dto, enabled, at).0 == w
    ensures ConvertStep(w, caller, prequote, other, dto, enabled, at).1.Err?
  {
    var k := Key(caller, other);
    if k in w.records {
      assert RecordSound(w, k);
      if w.records[k].payload.ConvertPayload? {
        SameOrigin(w, w.records[k].resourceId, w.prequotes[prequote].conversion.value);
      }
    }
  }

  /** What a run's records answer on replay is a conversion of that very prequote, made for that client. */
  lemma ReplaysLeadHome(ops: seq<Op>, client: Client, prequote: nat, key: string, dto: ConvertDto, enabled: bool, later: nat)
    ensures var w := Run(START, ops);
            var (after, r) := ConvertStep(w, client, prequote, key, dto, enabled, later);
            r.Ok? ==> && r.value.resourceId in after.conversions
                      && after.conversions[r.value.resourceId].prequote == prequote
                      && after.conversions[r.value.resourceId].client == client
  {
    RunIsSound(START, ops);
    var w := Run(START, ops);
    if Key(client, key) in w.records { assert RecordSound(w, Key(client, key)); }
  }
}
