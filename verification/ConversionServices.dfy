/**
 * The services that convert a prequote and quote or accept a request, each method against the step it
 * must perform. They share one database; a method is one transaction, so a refusal leaves it as it was.
 */
module ConversionServices {
  import opened Common
  import opened Conversion

  class Database {
    var clock: nat
    var nextUuid: nat
    var activeZones: set<nat>
    var prequotes: map<nat, Prequote>
    var records: map<Key, Record>
    var conversions: map<nat, ConversionRow>
    var requests: map<nat, RequestRow>
    var quotes: map<nat, QuoteRow>
    var acceptances: map<nat, AcceptanceRow>
    var dispatches: map<nat, DispatchRow>

    function View(): World reads this {
      World(clock, nextUuid, activeZones, prequotes, records, conversions, requests, quotes, acceptances, dispatches)
    }

    constructor ()
      ensures View() == START
    {
      clock, nextUuid, activeZones := 0, 0, {};
      prequotes, records, conversions := map[], map[], map[];
      requests, quotes, acceptances, dispatches := map[], map[], map[], map[];
    }
  }

  class PrequoteConversionService {
    const db: Database

    constructor (db: Database)
      ensures this.db == db
    {
      this.db := db;
    }

    method Convert(client: Client, prequote: nat, key: string, dto: ConvertDto, enabled: bool, later: nat) returns (r: Outcome)
      modifies db
      ensures (db.View(), r) == ConvertStep(old(db.View()), client, prequote, key, dto, enabled, later)
    {
      if !Convertible(dto) { return Err(BAD_REQUEST); }
      if Key(client, key) in db.records {
        return Replay(db.records[Key(client, key)], CONVERT, CONVERSION, ConvertPayload(prequote, dto));
      }
      if !enabled { return Err(PREQUOTE_CONVERSION_DISABLED); }
      if prequote !in db.prequotes || db.prequotes[prequote].client != client { return Err(NOT_FOUND); }
      var q := db.prequotes[prequote];
      if q.conversion.Some? { return Err(PREQUOTE_ALREADY_CONVERTED); }
      if q.offer.zoneId !in db.activeZones { return Err(PREQUOTE_SERVICE_UNAVAILABLE); }
      if db.clock >= q.expiresAt { return Err(PREQUOTE_EXPIRED); }
      if dto.conditions != Some(q.conditions) { return Err(PREQUOTE_CONDITIONS_MISMATCH); }
      if dto.paidAt > db.clock || dto.orderedAt > db.clock { return Err(BAD_REQUEST); }
      // The insert reads the clock again and refuses what expired in between.
      var convertedAt := Max(db.clock, later);
      if convertedAt >= q.expiresAt { return Err(PREQUOTE_EXPIRED); }
      r := Write(client, prequote, key, ConvertPayload(prequote, dto), convertedAt);
    }

    /** Conversion, request and quote under fresh identifiers, and the record that leads to them. */
    method Write(client: Client, prequote: nat, key: string, payload: Payload, convertedAt: nat) returns (r: Outcome)
      requires prequote in db.prequotes
      modifies db
      ensures db.View() == Converted(old(db.View()), client, prequote, key, convertedAt).(records := old(db.records)[
                             Key(client, key) := Record(CONVERT, CONVERSION, payload, old(db.nextUuid), false)])
      ensures r == Ok(Receipt(old(db.nextUuid), false))
    {
      var q := db.prequotes[prequote];
      var id, request, quote := db.nextUuid, db.nextUuid + 1, db.nextUuid + 2;
      db.clock, db.nextUuid := convertedAt, db.nextUuid + 3;
      db.records := db.records[Key(client, key) := Record(CONVERT, CONVERSION, payload, id, false)];
      db.conversions := db.conversions[id := ConversionRow(prequote, request, quote, client, Key(client, key), convertedAt)];
      db.prequotes := db.prequotes[prequote := q.(conversion := Some(id))];
      db.requests := db.requests[request := RequestRow(client, convertedAt, false, Some(id), Some(quote), None)];
      db.quotes := db.quotes[quote := QuoteRow(request, q.offer, OFFERED, convertedAt, q.expiresAt, None, None, None)];
      return Ok(Receipt(id, false));
    }
  }

  class DeliveryQuotesService {
    const db: Database

    constructor (db: Database)
      ensures this.db == db
    {
      this.db := db;
    }

    method Quote(request: nat, client: Client, pricing: Option<Offer>, validityMinutes: nat) returns (r: Outcome)
      modifies db`quotes, db`requests, db`nextUuid
      ensures (db.View(), r) == QuoteStep(old(db.View()), request, client, pricing, validityMinutes)
    {
      if request !in db.requests || db.requests[request].client != client { return Err(NOT_FOUND); }
      var row := db.requests[request];
      if row.conversion.Some? { return Err(PREQUOTE_REQUOTE_NOT_ALLOWED); }
      if row.cancelled { return Err(DELIVERY_REQUEST_NOT_QUOTABLE); }
      if row.accepted.Some? { return Ok(Receipt(row.accepted.value, true)); }
      var lapsed := row.offered.Some? && row.offered.value in db.quotes;
      if lapsed && db.quotes[row.offered.value].expiresAt > db.clock { return Ok(Receipt(row.offered.value, true)); }
      // An offer that has lapsed is expired in the same transaction; a refused price takes it back.
      if pricing.None? { return Err(PRICING_REFUSED); }
      if lapsed {
        db.quotes := db.quotes[row.offered.value := db.quotes[row.offered.value].(status := EXPIRED)];
        db.requests := db.requests[request := row.(offered := None)];
      }
      var id := db.nextUuid;
      db.nextUuid := id + 1;
      var expiresAt := db.clock + validityMinutes * 60000;
      db.quotes := db.quotes[id := QuoteRow(request, pricing.value, OFFERED, db.clock, expiresAt, None, None, None)];
      db.requests := db.requests[request := row.(offered := Some(id))];
      return Ok(Receipt(id, false));
    }

    method Accept(quote: nat, client: Client, opens: bool) returns (r: Outcome)
      modifies db`quotes, db`requests, db`dispatches, db`nextUuid
      ensures (db.View(), r) == AcceptLegacyStep(old(db.View()), quote, client, opens)
    {
      if quote !in db.quotes || db.quotes[quote].request !in db.requests
         || db.requests[db.quotes[quote].request].client != client {
        return Err(NOT_FOUND);
      }
      var q := db.quotes[quote];
      var row := db.requests[q.request];
      if row.conversion.Some? { return Err(AUTHORIZED_ACCEPT_REQUIRED); }
      if q.status.ACCEPTED? { return Ok(Receipt(quote, true)); }
      if q.status.EXPIRED? { return Err(QUOTE_EXPIRED); }
      if q.status.CANCELLED? || row.cancelled { return Err(QUOTE_NOT_ACCEPTABLE); }
      if db.clock >= q.expiresAt {
        db.quotes := db.quotes[quote := q.(status := EXPIRED)];
        db.requests := db.requests[q.request := row.(offered := None)];
        return Err(QUOTE_EXPIRED);
      }
      if !opens { return Err(OPENING_REFUSED); }
      var dispatch := db.nextUuid;
      db.nextUuid := dispatch + 1;
      db.quotes := db.quotes[quote := q.(status := ACCEPTED, acceptedAt := Some(db.clock), dispatch := Some(dispatch), acceptance := None)];
      db.requests := db.requests[q.request := row.(offered := None, accepted := Some(quote))];
      db.dispatches := db.dispatches[dispatch := DispatchRow(q.request, quote, db.clock)];
      return Ok(Receipt(quote, false));
    }
  }

  class AuthorizedAcceptanceService {
    const db: Database
    const quotes: DeliveryQuotesService

    constructor (db: Database, quotes: DeliveryQuotesService)
      ensures this.db == db && this.quotes == quotes
    {
      this.db, this.quotes := db, quotes;
    }

    method Accept(quote: nat, p: Principal, key: Option<string>, z: Option<Authorization>,
                  enabled: bool, later: nat, opens: bool, stillEnabled: bool) returns (r: Outcome)
      requires quotes.db == db
      modifies db
      ensures (db.View(), r) == AcceptStep(old(db.View()), quote, p, key, z, enabled, later, opens, stillEnabled)
    {
      if quote !in db.quotes || db.quotes[quote].request !in db.requests
         || db.requests[db.quotes[quote].request].client != p.client {
        return Err(NOT_FOUND);
      }
      if db.requests[db.quotes[quote].request].conversion.None? {
        if z.Some? { return Err(AUTHORIZED_ACCEPT_ORIGIN_REQUIRED); }
        r := quotes.Accept(quote, p.client, opens);
        return;
      }
      if z.None? || key.None? || !KeyOk(key.value) { return Err(BAD_REQUEST); }
      if Key(p.client, key.value) in db.records {
        return Replay(db.records[Key(p.client, key.value)], ACCEPT, ACCEPTANCE, AcceptPayload(quote, z.value));
      }
      var acceptedAt := Max(db.clock, later);
      var refusal := AcceptanceRefusal(db.View(), quote, p, z.value, enabled, acceptedAt);
      if refusal.Some? { return Err(refusal.value); }
      if !opens { return Err(OPENING_REFUSED); }
      if !stillEnabled { return Err(AUTHORIZED_ACCEPT_DISABLED); }
      r := Write(quote, p, key.value, z.value, acceptedAt);
    }

    /** Evidence first, then the quote, then the dispatch the evidence names. */
    method Write(quote: nat, p: Principal, key: string, z: Authorization, acceptedAt: nat) returns (r: Outcome)
      requires quote in db.quotes && db.quotes[quote].request in db.requests
      requires db.requests[db.quotes[quote].request].conversion.Some?
      modifies db
      ensures db.View() == Authorized(old(db.View()), quote, p, key, z, acceptedAt).(records := old(db.records)[
                             Key(p.client, key) := Record(ACCEPT, ACCEPTANCE, AcceptPayload(quote, z), old(db.nextUuid), false)])
      ensures r == Ok(Receipt(old(db.nextUuid), false))
    {
      var q := db.quotes[quote];
      var row := db.requests[q.request];
      var id, dispatch := db.nextUuid, db.nextUuid + 1;
      db.clock, db.nextUuid := acceptedAt, db.nextUuid + 2;
      db.records := db.records[Key(p.client, key) := Record(ACCEPT, ACCEPTANCE, AcceptPayload(quote, z), id, false)];
      db.acceptances := db.acceptances[id :=
        AcceptanceRow(row.conversion.value, q.request, quote, p.client, Key(p.client, key), dispatch, acceptedAt,
                      z.authorizedAt, z.amount, z.currency, q.expiresAt)];
      db.quotes := db.quotes[quote := q.(
        status := ACCEPTED, acceptedAt := Some(acceptedAt), dispatch := Some(dispatch), acceptance := Some(id))];
      db.requests := db.requests[q.request := row.(offered := None, accepted := Some(quote))];
      db.dispatches := db.dispatches[dispatch := DispatchRow(q.request, quote, acceptedAt)];
      return Ok(Receipt(id, false));
    }
  }
}
