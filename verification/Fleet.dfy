/**
 * Who drives what, and how a service ends. Delivery assignments put a driver and a vehicle on a claimed
 * dispatch; pairings say which vehicle a driver operates; a completion closes the assignment, delivers
 * the dispatch and records one outbox event, all in one transaction. Rows are only ever added or closed.
 *
 * Each operation holds the locks of the dispatch, the driver and the vehicle it touches, so it is one
 * atomic step. A row's identifier is its position. Whether papers are in order, whether a provider still
 * covers the zone and whether an award could be paid are answers given to a step.
 */
module Fleet {
  import opened Common
  import opened DispatchPolicy

  datatype ProviderStatus = PROVIDER_PENDING | PROVIDER_ACTIVE | PROVIDER_SUSPENDED
  datatype DriverStatus = DRIVER_PENDING | DRIVER_ACTIVE | DRIVER_SUSPENDED
  datatype VehicleStatus = VEHICLE_ACTIVE | VEHICLE_INACTIVE | VEHICLE_MAINTENANCE | VEHICLE_SUSPENDED

  /** A driver may belong to a fleet and also be approved to work on its own. */
  datatype DriverRow = DriverRow(provider: Option<nat>, status: DriverStatus, userActive: bool, approved: bool)
  /** A vehicle belongs to a provider or to one independent driver. */
  datatype VehicleRow = VehicleRow(owner: Holder, status: VehicleStatus)

  datatype AssignmentStatus = ACTIVE | REASSIGNED | ENDED | COMPLETED
  datatype EndReason = DRIVER_UNAVAILABLE | VEHICLE_ISSUE | OPERATIONAL_CHANGE | DELIVERY_CANCELLED | OTHER

  /** `owner` is the provider in fleet mode and the driver itself in independent mode. */
  datatype Assignment = Assignment(
    dispatch: nat, owner: Holder, driver: nat, vehicle: nat, status: AssignmentStatus,
    assignedAt: nat, endedAt: Option<nat>, endReason: Option<EndReason>)

  datatype Pairing = Pairing(provider: nat, driver: nat, vehicle: nat, assignedAt: nat, unassignedAt: Option<nat>)

  datatype Request = Request(client: nat, requestedAt: nat, cancelledAt: Option<nat>)
  datatype Dispatch = Dispatch(
    request: nat, status: Status, window: Window, holder: Holder, candidates: map<nat, CandidateStatus>,
    deliveredAt: Option<nat>, deliveredBy: Option<nat>, cancelledAt: Option<nat>)

  datatype PublicStatus = P_REQUESTED | P_OPEN | P_ASSIGNED | P_DELIVERED | P_CANCELLED | P_EXPIRED
  datatype ExecutionMode = BY_PROVIDER | BY_INDEPENDENT
  datatype StatusView = StatusView(
    request: nat, status: PublicStatus, execution: Option<ExecutionMode>,
    requestedAt: nat, deliveredAt: Option<nat>, cancelledAt: Option<nat>)

  datatype OutboxEvent = OutboxEvent(client: nat, request: nat, dispatch: nat, occurredAt: nat, payload: StatusView)

  datatype Tables = Tables(
    clock: nat, providers: map<nat, ProviderStatus>, drivers: map<nat, DriverRow>, vehicles: map<nat, VehicleRow>,
    requests: seq<Request>, dispatches: seq<Dispatch>, assignments: seq<Assignment>, pairings: seq<Pairing>,
    outbox: seq<OutboxEvent>)

  const START := Tables(0, map[], map[], map[], [], [], [], [], [])

  datatype Error =
    | NOT_FOUND | Rejected(code: RejectionCode) | PROVIDER_NOT_ELIGIBLE | AWARD_REFUSED | DOCUMENTS_REFUSED
    | DISPATCH_NOT_CLAIMED_BY_PROVIDER | DISPATCH_NOT_CLAIMED_BY_DRIVER | DISPATCH_HAS_ACTIVE_ASSIGNMENT
    | DISPATCH_ALREADY_ASSIGNED | NO_ACTIVE_ASSIGNMENT | ASSIGNMENT_UNCHANGED | PROVIDER_NOT_ACTIVE
    | DRIVER_NOT_ELIGIBLE | VEHICLE_NOT_ELIGIBLE | DRIVER_BUSY | VEHICLE_BUSY | DRIVER_VEHICLE_MISMATCH
    | INDEPENDENT_NOT_APPROVED | PAIRING_CONFLICT(subject: string)

  datatype Answer = Done | Unchanged
  type Outcome = Result<Answer, Error>

  // ---------------------------------------------------------------- lookups

  /** The row of a dispatch in a given state. */
  function FindRow(rows: seq<Assignment>, id: nat, status: AssignmentStatus): (r: Option<nat>)
    ensures r.Some? ==> r.value < |rows| && rows[r.value].dispatch == id && rows[r.value].status == status
    ensures r.None? ==> forall i :: 0 <= i < |rows| ==> !(rows[i].dispatch == id && rows[i].status == status)
  {
    if rows == [] then None
    else
      var n := |rows| - 1;
      if rows[n].dispatch == id && rows[n].status == status then Some(n) else FindRow(rows[..n], id, status)
  }

  function FindEvent(outbox: seq<OutboxEvent>, id: nat): (r: Option<nat>)
    ensures r.Some? ==> r.value < |outbox| && outbox[r.value].dispatch == id
    ensures r.None? ==> forall i :: 0 <= i < |outbox| ==> outbox[i].dispatch != id
  {
    if outbox == [] then None
    else
      var n := |outbox| - 1;
      if outbox[n].dispatch == id then Some(n) else FindEvent(outbox[..n], id)
  }

  /** A driver operates at most one vehicle at a time: its open pairing. */
  function OpenPairing(pairings: seq<Pairing>, driver: nat): (r: Option<nat>)
    ensures r.Some? ==>
              r.value < |pairings| && pairings[r.value].driver == driver && pairings[r.value].unassignedAt.None?
    ensures r.None? ==>
              forall i :: 0 <= i < |pairings| ==> !(pairings[i].driver == driver && pairings[i].unassignedAt.None?)
  {
    if pairings == [] then None
    else
      var n := |pairings| - 1;
      if pairings[n].driver == driver && pairings[n].unassignedAt.None? then Some(n) else OpenPairing(pairings[..n], driver)
  }

  predicate DriverBusy(rows: seq<Assignment>, driver: nat, replacing: Option<nat>) {
    exists i :: 0 <= i < |rows| && rows[i].status.ACTIVE? && Some(i) != replacing && rows[i].driver == driver
  }

  predicate VehicleBusy(rows: seq<Assignment>, vehicle: nat, replacing: Option<nat>) {
    exists i :: 0 <= i < |rows| && rows[i].status.ACTIVE? && Some(i) != replacing && rows[i].vehicle == vehicle
  }

  predicate PairingConflict(pairings: seq<Pairing>, driver: nat, vehicle: nat) {
    exists i :: 0 <= i < |pairings| && pairings[i].unassignedAt.None?
      && (pairings[i].driver == driver) != (pairings[i].vehicle == vehicle)
  }

  // ---------------------------------------------------------------- delivery assignments

  function OwnedDispatch(f: Tables, id: nat, provider: nat): Option<Error> {
    if id >= |f.dispatches| || provider !in f.dispatches[id].candidates then Some(NOT_FOUND)
    else if !f.dispatches[id].status.CLAIMED? || f.dispatches[id].holder != Provider(provider)
    then Some(DISPATCH_NOT_CLAIMED_BY_PROVIDER)
    else None
  }

  /** Why these resources cannot be put to work, in check order. */
  function Ineligible(f: Tables, provider: nat, driver: nat, vehicle: nat, replacing: Option<nat>): Option<Error> {
    if provider !in f.providers then Some(NOT_FOUND)
    else if driver !in f.drivers || f.drivers[driver].provider != Some(provider) then Some(NOT_FOUND)
    else if vehicle !in f.vehicles || f.vehicles[vehicle].owner != Provider(provider) then Some(NOT_FOUND)
    else if !f.providers[provider].PROVIDER_ACTIVE? then Some(PROVIDER_NOT_ACTIVE)
    else if !f.drivers[driver].status.DRIVER_ACTIVE? || !f.drivers[driver].userActive then Some(DRIVER_NOT_ELIGIBLE)
    else if !f.vehicles[vehicle].status.VEHICLE_ACTIVE? then Some(VEHICLE_NOT_ELIGIBLE)
    else if DriverBusy(f.assignments, driver, replacing) then Some(DRIVER_BUSY)
    else if VehicleBusy(f.assignments, vehicle, replacing) then Some(VEHICLE_BUSY)
    else if PairingConflict(f.pairings, driver, vehicle) then Some(DRIVER_VEHICLE_MISMATCH)
    else None
  }

  function Fresh(id: nat, owner: Holder, driver: nat, vehicle: nat, now: nat): Assignment {
    Assignment(id, owner, driver, vehicle, ACTIVE, now, None, None)
  }

  function Close(row: Assignment, status: AssignmentStatus, now: nat, reason: Option<EndReason>): Assignment {
    row.(status := status, endedAt := Some(now), endReason := reason)
  }

  function CreateStep(f: Tables, id: nat, driver: nat, vehicle: nat, provider: nat, documents: bool): (Tables, Outcome) {
    var refused := OwnedDispatch(f, id, provider);
    if refused.Some? then (f, Err(refused.value))
    else if FindRow(f.assignments, id, ACTIVE).Some? then (f, Err(DISPATCH_ALREADY_ASSIGNED))
    else
      var ineligible := Ineligible(f, provider, driver, vehicle, None);
      if ineligible.Some? then (f, Err(ineligible.value))
      else if !documents then (f, Err(DOCUMENTS_REFUSED))
      else (f.(assignments := f.assignments + [Fresh(id, Provider(provider), driver, vehicle, f.clock)]), Ok(Done))
  }

  function ReassignStep(f: Tables, id: nat, driver: nat, vehicle: nat, provider: nat, reason: EndReason, documents: bool)
    : (Tables, Outcome)
  {
    var refused := OwnedDispatch(f, id, provider);
    var previous := FindRow(f.assignments, id, ACTIVE);
    if refused.Some? then (f, Err(refused.value))
    else if previous.None? then (f, Err(NO_ACTIVE_ASSIGNMENT))
    else if f.assignments[previous.value].driver == driver && f.assignments[previous.value].vehicle == vehicle
    then (f, Err(ASSIGNMENT_UNCHANGED))
    else
      var ineligible := Ineligible(f, provider, driver, vehicle, previous);
      if ineligible.Some? then (f, Err(ineligible.value))
      else if !documents then (f, Err(DOCUMENTS_REFUSED))
      else
        var closed := Close(f.assignments[previous.value], REASSIGNED, f.clock, Some(reason));
        (f.(assignments := f.assignments[previous.value := closed]
                           + [Fresh(id, Provider(provider), driver, vehicle, f.clock)]), Ok(Done))
  }

  function EndStep(f: Tables, id: nat, provider: nat, reason: EndReason): (Tables, Outcome) {
    var refused := OwnedDispatch(f, id, provider);
    var active := FindRow(f.assignments, id, ACTIVE);
    if refused.Some? then (f, Err(refused.value))
    else if active.None? then (f, Err(NO_ACTIVE_ASSIGNMENT))
    else
      (f.(assignments := f.assignments[active.value := Close(f.assignments[active.value], ENDED, f.clock, Some(reason))]),
       Ok(Done))
  }

  /** Every active row of these dispatches ends; no other row changes. */
  function CancelActive(rows: seq<Assignment>, ids: set<nat>, now: nat): (r: seq<Assignment>)
    ensures |r| == |rows|
    ensures forall i :: 0 <= i < |rows| ==>
              r[i] == if rows[i].status.ACTIVE? && rows[i].dispatch in ids
                      then Close(rows[i], ENDED, now, Some(DELIVERY_CANCELLED)) else rows[i]
  {
    seq(|rows|, i requires 0 <= i < |rows| =>
      if rows[i].status.ACTIVE? && rows[i].dispatch in ids
      then Close(rows[i], ENDED, now, Some(DELIVERY_CANCELLED)) else rows[i])
  }

  // ---------------------------------------------------------------- pairings

  function AssignStep(f: Tables, provider: nat, driver: nat, vehicle: nat, documents: bool): (Tables, Outcome) {
    if provider !in f.providers then (f, Err(NOT_FOUND))
    else if driver !in f.drivers || f.drivers[driver].provider != Some(provider) then (f, Err(NOT_FOUND))
    else if vehicle !in f.vehicles || f.vehicles[vehicle].owner != Provider(provider) then (f, Err(NOT_FOUND))
    else if f.providers[provider].PROVIDER_SUSPENDED? then (f, Err(PROVIDER_NOT_ACTIVE))
    else if f.drivers[driver].status.DRIVER_SUSPENDED? then (f, Err(DRIVER_NOT_ELIGIBLE))
    else if !f.vehicles[vehicle].status.VEHICLE_ACTIVE? then (f, Err(VEHICLE_NOT_ELIGIBLE))
    else if exists i :: 0 <= i < |f.pairings| && f.pairings[i].unassignedAt.None? && f.pairings[i].driver == driver
    then (f, Err(PAIRING_CONFLICT("driver")))
    else if exists i :: 0 <= i < |f.pairings| && f.pairings[i].unassignedAt.None? && f.pairings[i].vehicle == vehicle
    then (f, Err(PAIRING_CONFLICT("vehicle")))
    else if DriverBusy(f.assignments, driver, None) || VehicleBusy(f.assignments, vehicle, None)
    then (f, Err(PAIRING_CONFLICT("delivering")))
    else if !documents then (f, Err(DOCUMENTS_REFUSED))
    else (f.(pairings := f.pairings + [Pairing(provider, driver, vehicle, f.clock, None)]), Ok(Done))
  }

  function UnassignStep(f: Tables, provider: nat, driver: nat): (Tables, Outcome) {
    var open := OpenPairing(f.pairings, driver);
    if driver !in f.drivers || f.drivers[driver].provider != Some(provider) then (f, Err(NOT_FOUND))
    else if open.None? then (f, Err(NOT_FOUND))
    else if DriverBusy(f.assignments, driver, None) then (f, Err(PAIRING_CONFLICT("delivering")))
    else
      var p := f.pairings[open.value];
      (f.(pairings := f.pairings[open.value := p.(unassignedAt := Some(Max(f.clock, p.assignedAt)))]), Ok(Done))
  }

  // ---------------------------------------------------------------- winning, losing, cancelling

  function Write(f: Tables, id: nat, d: Dispatch): Tables
    requires id < |f.dispatches|
  {
    f.(dispatches := f.dispatches[id := d])
  }

  function ClaimStep(f: Tables, id: nat, provider: nat, eligible: bool, paid: bool): (Tables, Outcome) {
    if id >= |f.dispatches| || provider !in f.dispatches[id].candidates then (f, Err(NOT_FOUND))
    else
      var d := f.dispatches[id];
      match ClaimRejection(d.status, d.window, d.holder, d.candidates[provider], provider, f.clock)
      case AlreadyOwner => (f, Ok(Unchanged))
      case Refused(code) =>
        (if code.DISPATCH_EXPIRED? && d.status.OPEN? then Write(f, id, d.(status := EXPIRED)) else f, Err(Rejected(code)))
      case Proceed =>
        if !eligible then (f, Err(PROVIDER_NOT_ELIGIBLE))
        else if !paid then (f, Err(AWARD_REFUSED))
        else (Write(f, id, d.(status := CLAIMED, holder := Provider(provider), candidates := d.candidates[provider := Claimed])),
              Ok(Done))
  }

  predicate GaveBack(rows: seq<Assignment>, id: nat, driver: nat) {
    exists i :: 0 <= i < |rows| && rows[i].dispatch == id && rows[i].driver == driver && rows[i].status.ENDED?
  }

  function TakeStep(f: Tables, id: nat, driver: nat, vehicle: nat, open: bool, documents: bool, paid: bool): (Tables, Outcome) {
    if driver !in f.drivers || !f.drivers[driver].approved then (f, Err(INDEPENDENT_NOT_APPROVED))
    else if id >= |f.dispatches| then (f, Err(NOT_FOUND))
    else
      var d := f.dispatches[id];
      match TakeRejection(d.status, d.window, open, GaveBack(f.assignments, id, driver), f.clock)
      case Refused(code) =>
        (if code.DISPATCH_EXPIRED? && d.status.OPEN? then Write(f, id, d.(status := EXPIRED)) else f, Err(Rejected(code)))
      case _ =>
        if !f.drivers[driver].status.DRIVER_ACTIVE? || !f.drivers[driver].userActive then (f, Err(DRIVER_NOT_ELIGIBLE))
        else if vehicle !in f.vehicles || f.vehicles[vehicle].owner != Driver(driver) then (f, Err(NOT_FOUND))
        else if !f.vehicles[vehicle].status.VEHICLE_ACTIVE? then (f, Err(VEHICLE_NOT_ELIGIBLE))
        else if DriverBusy(f.assignments, driver, None) then (f, Err(DRIVER_BUSY))
        else if VehicleBusy(f.assignments, vehicle, None) then (f, Err(VEHICLE_BUSY))
        else if !documents then (f, Err(DOCUMENTS_REFUSED))
        else if !paid then (f, Err(AWARD_REFUSED))
        else
          (Write(f, id, d.(status := CLAIMED, holder := Driver(driver)))
             .(assignments := f.assignments + [Fresh(id, Driver(driver), driver, vehicle, f.clock)]), Ok(Done))
  }

  function Reopened(d: Dispatch, now: nat): Dispatch {
    d.(status := if now >= d.window.expiresAt then EXPIRED else OPEN, holder := Nobody)
  }

  function ReleaseStep(f: Tables, id: nat, provider: nat, paid: bool): (Tables, Outcome) {
    if id >= |f.dispatches| || provider !in f.dispatches[id].candidates then (f, Err(NOT_FOUND))
    else
      var d := f.dispatches[id];
      if !d.status.CLAIMED? || d.holder != Provider(provider) then (f, Err(DISPATCH_NOT_CLAIMED_BY_PROVIDER))
      else if FindRow(f.assignments, id, ACTIVE).Some? then (f, Err(DISPATCH_HAS_ACTIVE_ASSIGNMENT))
      else if !paid then (f, Err(AWARD_REFUSED))
      else (Write(f, id, Reopened(d, f.clock).(candidates := d.candidates[provider := Released])), Ok(Done))
  }

  function GiveBackStep(f: Tables, id: nat, driver: nat, reason: EndReason, paid: bool): (Tables, Outcome) {
    if driver !in f.drivers || !f.drivers[driver].approved then (f, Err(INDEPENDENT_NOT_APPROVED))
    else if id >= |f.dispatches| then (f, Err(NOT_FOUND))
    else
      var d := f.dispatches[id];
      if !d.status.CLAIMED? || d.holder != Driver(driver) then (f, Err(DISPATCH_NOT_CLAIMED_BY_DRIVER))
      else if !paid then (f, Err(AWARD_REFUSED))
      else
        var active := FindRow(f.assignments, id, ACTIVE);
        var rows := if active.None? then f.assignments
                    else f.assignments[active.value := Close(f.assignments[active.value], ENDED, f.clock, Some(reason))];
        (Write(f, id, Reopened(d, f.clock)).(assignments := rows), Ok(Done))
  }

  predicate Closing(f: Tables, request: nat, id: nat) {
    id < |f.dispatches| && f.dispatches[id].request == request && Operational(f.dispatches[id].status)
  }

  function Cancelled(d: Dispatch, now: nat): Dispatch {
    if EffectiveStatus(d.status, d.window, now).EXPIRED? then d.(status := EXPIRED)
    else d.(status := CANCELLED, cancelledAt := Some(now))
  }

  function CancelStep(f: Tables, request: nat, paid: bool): (Tables, Outcome) {
    if request >= |f.requests| then (f, Err(NOT_FOUND))
    else if f.requests[request].cancelledAt.Some? then (f, Ok(Unchanged))
    else if !paid then (f, Err(AWARD_REFUSED))
    else
      var ids := set id | 0 <= id < |f.dispatches| && Closing(f, request, id);
      (f.(requests := f.requests[request := f.requests[request].(cancelledAt := Some(f.clock))],
          assignments := CancelActive(f.assignments, ids, f.clock),
          dispatches := seq(|f.dispatches|, i requires 0 <= i < |f.dispatches| =>
            if Closing(f, request, i) then Cancelled(f.dispatches[i], f.clock) else f.dispatches[i])),
       Ok(Done))
  }

  // ---------------------------------------------------------------- what a client sees

  /** The single dispatch of a request: the newest, should there ever be several. */
  function NewestDispatch(dispatches: seq<Dispatch>, request: nat): (r: Option<nat>)
    ensures r.Some? ==> r.value < |dispatches| && dispatches[r.value].request == request
    ensures r.Some? ==> forall i :: r.value < i < |dispatches| ==> dispatches[i].request != request
    ensures r.None? ==> forall i :: 0 <= i < |dispatches| ==> dispatches[i].request != request
  {
    if dispatches == [] then None
    else
      var n := |dispatches| - 1;
      if dispatches[n].request == request then Some(n) else NewestDispatch(dispatches[..n], request)
  }

  function PublicOf(status: Status): PublicStatus {
    match status
    case OPEN => P_OPEN
    case CLAIMED => P_ASSIGNED
    case DELIVERED => P_DELIVERED
    case CANCELLED => P_CANCELLED
    case EXPIRED => P_EXPIRED
  }

  function ModeOf(holder: Holder): Option<ExecutionMode> {
    match holder
    case Nobody => None
    case Provider(_) => Some(BY_PROVIDER)
    case Driver(_) => Some(BY_INDEPENDENT)
  }

  function DeliveryStatusView(f: Tables, request: nat, now: nat): StatusView
    requires request < |f.requests|
  {
    var r := f.requests[request];
    match NewestDispatch(f.dispatches, request)
    case None =>
      StatusView(request, if r.cancelledAt.Some? then P_CANCELLED else P_REQUESTED, None, r.requestedAt, None, r.cancelledAt)
    case Some(id) =>
      var d := f.dispatches[id];
      var status := PublicOf(EffectiveStatus(d.status, d.window, now));
      StatusView(
        request, status,
        if status.P_DELIVERED? || status.P_ASSIGNED? || status.P_CANCELLED? then ModeOf(d.holder) else None,
        r.requestedAt, d.deliveredAt,
        if !status.P_CANCELLED? then None else if r.cancelledAt.Some? then r.cancelledAt else d.cancelledAt)
  }

  // ---------------------------------------------------------------- completion

  function NotOwner(actor: Holder): Error {
    if actor.Driver? then DISPATCH_NOT_CLAIMED_BY_DRIVER else DISPATCH_NOT_CLAIMED_BY_PROVIDER
  }

  function CompleteStep(f: Tables, id: nat, actor: Holder, user: nat): (Tables, Outcome) {
    if id >= |f.dispatches| || f.dispatches[id].request >= |f.requests| then (f, Err(NOT_FOUND))
    else
      var d := f.dispatches[id];
      if actor.Nobody? || d.holder != actor then (f, Err(NotOwner(actor)))
      else if d.status.DELIVERED? then (f, Ok(Unchanged))
      else if !d.status.CLAIMED? then (f, Err(NotOwner(actor)))
      else
        var active := FindRow(f.assignments, id, ACTIVE);
        if active.None? then (f, Err(NO_ACTIVE_ASSIGNMENT))
        else
          var ended := f.(assignments := f.assignments[active.value := Close(f.assignments[active.value], COMPLETED, f.clock, None)]);
          var delivered := Write(ended, id, d.(status := DELIVERED, deliveredAt := Some(f.clock), deliveredBy := Some(user)));
          var event := OutboxEvent(f.requests[d.request].client, d.request, id, f.clock,
                                   DeliveryStatusView(delivered, d.request, f.clock));
          (delivered.(outbox := f.outbox + [event]), Ok(Done))
  }

  // ---------------------------------------------------------------- runs

  datatype Op =
    | Tick(to: nat)
    | SetProvider(provider: nat, status: ProviderStatus)
    | SetDriver(driver: nat, driverRow: DriverRow)
    | SetVehicle(vehicle: nat, vehicleRow: VehicleRow)
    | NewRequest(client: nat)
    | Publish(request: nat, window: Window, candidates: set<nat>)
    | NextRound(id: nat, window: Window, joined: set<nat>, over: bool)
    | Claim(id: nat, provider: nat, eligible: bool, paid: bool)
    | Take(id: nat, driver: nat, vehicle: nat, open: bool, documents: bool, paid: bool)
    | Release(id: nat, provider: nat, paid: bool)
    | GiveBack(id: nat, driver: nat, reason: EndReason, paid: bool)
    | CancelRequest(request: nat, paid: bool)
    | Create(id: nat, driver: nat, vehicle: nat, provider: nat, documents: bool)
    | Reassign(id: nat, driver: nat, vehicle: nat, provider: nat, reason: EndReason, documents: bool)
    | End(id: nat, provider: nat, reason: EndReason)
    | Pair(provider: nat, driver: nat, vehicle: nat, documents: bool)
    | Unpair(provider: nat, driver: nat)
    | Complete(id: nat, actor: Holder, user: nat)

  /** A request is published at most once: it has one accepted quote and a quote one dispatch. */
  function PublishStep(f: Tables, request: nat, window: Window, candidates: set<nat>): Tables {
    if request >= |f.requests| || f.requests[request].cancelledAt.Some? || NewestDispatch(f.dispatches, request).Some? then f
    else
      f.(dispatches := f.dispatches
         + [Dispatch(request, OPEN, window, Nobody, map p | p in candidates :: Offered, None, None, None)])
  }

  function NextRoundStep(f: Tables, id: nat, window: Window, joined: set<nat>, over: bool): Tables {
    if id >= |f.dispatches| || !f.dispatches[id].status.OPEN? then f
    else
      var d := f.dispatches[id];
      if over then Write(f, id, d.(status := EXPIRED))
      else
        Write(f, id,
              d.(window := window,
                 candidates := map p | p in d.candidates.Keys + joined :: if p in d.candidates then d.candidates[p] else Offered))
  }

  function Apply(f: Tables, op: Op): Tables {
    match op
    case Tick(to) => if to < f.clock then f else f.(clock := to)
    case SetProvider(provider, status) => f.(providers := f.providers[provider := status])
    case SetDriver(driver, row) => f.(drivers := f.drivers[driver := row])
    case SetVehicle(vehicle, row) => f.(vehicles := f.vehicles[vehicle := row])
    case NewRequest(client) => f.(requests := f.requests + [Request(client, f.clock, None)])
    case Publish(request, window, candidates) => PublishStep(f, request, window, candidates)
    case NextRound(id, window, joined, over) => NextRoundStep(f, id, window, joined, over)
    case Claim(id, provider, eligible, paid) => ClaimStep(f, id, provider, eligible, paid).0
    case Take(id, driver, vehicle, open, documents, paid) => TakeStep(f, id, driver, vehicle, open, documents, paid).0
    case Release(id, provider, paid) => ReleaseStep(f, id, provider, paid).0
    case GiveBack(id, driver, reason, paid) => GiveBackStep(f, id, driver, reason, paid).0
    case CancelRequest(request, paid) => CancelStep(f, request, paid).0
    case Create(id, driver, vehicle, provider, documents) => CreateStep(f, id, driver, vehicle, provider, documents).0
    case Reassign(id, driver, vehicle, provider, reason, documents) =>
      ReassignStep(f, id, driver, vehicle, provider, reason, documents).0
    case End(id, provider, reason) => EndStep(f, id, provider, reason).0
    case Pair(provider, driver, vehicle, documents) => AssignStep(f, provider, driver, vehicle, documents).0
    case Unpair(provider, driver) => UnassignStep(f, provider, driver).0
    case Complete(id, actor, user) => CompleteStep(f, id, actor, user).0
  }

  function Run(f: Tables, ops: seq<Op>): Tables
    decreases |ops|
  {
    if ops == [] then f else Run(Apply(f, ops[0]), ops[1..])
  }

  // ---------------------------------------------------------------- the invariant

  /** One row against its dispatch. */
  ghost predicate RowSound(dispatches: seq<Dispatch>, row: Assignment) {
    && row.dispatch < |dispatches| && !row.owner.Nobody?
    && (row.owner.Driver? ==> row.owner.driver == row.driver)
    && var d := dispatches[row.dispatch];
       && (row.status.ACTIVE? ==> d.status.CLAIMED? && d.holder == row.owner && row.endedAt.None?)
       && (row.status.COMPLETED? ==> d.status.DELIVERED? && d.holder == row.owner && row.endedAt == d.deliveredAt)
  }

  /** At most one active row per dispatch, per driver and per vehicle; at most one completed per dispatch. */
  ghost predicate Apart(a: Assignment, b: Assignment) {
    && (a.status.ACTIVE? && b.status.ACTIVE? ==>
          a.dispatch != b.dispatch && a.driver != b.driver && a.vehicle != b.vehicle)
    && (a.status.COMPLETED? && b.status.COMPLETED? ==> a.dispatch != b.dispatch)
  }

  ghost predicate RowsSound(f: Tables) {
    && (forall i :: 0 <= i < |f.assignments| ==> RowSound(f.dispatches, f.assignments[i]))
    && (forall i, j :: 0 <= i < j < |f.assignments| ==> Apart(f.assignments[i], f.assignments[j]))
  }

  /** One dispatch against its rows and events. */
  ghost predicate DispatchSound(f: Tables, id: nat)
    requires id < |f.dispatches|
  {
    var d := f.dispatches[id];
    && d.request < |f.requests|
    && (d.status.CLAIMED? || d.status.DELIVERED? ==> !d.holder.Nobody?)
    && (d.status.CLAIMED? && d.holder.Driver? ==> FindRow(f.assignments, id, ACTIVE).Some?)
    && (d.status.DELIVERED? <==> d.deliveredAt.Some?)
    && (d.status.DELIVERED? ==> FindRow(f.assignments, id, COMPLETED).Some? && FindEvent(f.outbox, id).Some?)
    && (f.requests[d.request].cancelledAt.Some? ==> !Operational(d.status))
  }

  ghost predicate EventSound(f: Tables, e: OutboxEvent) {
    && e.dispatch < |f.dispatches|
    && var d := f.dispatches[e.dispatch];
       && d.status.DELIVERED? && d.deliveredAt == Some(e.occurredAt) && d.request == e.request < |f.requests|
       && e.client == f.requests[e.request].client
       && e.payload == StatusView(e.request, P_DELIVERED, ModeOf(d.holder), f.requests[e.request].requestedAt,
                                  Some(e.occurredAt), None)
  }

  ghost predicate HistorySound(f: Tables) {
    && (forall id :: 0 <= id < |f.dispatches| ==> DispatchSound(f, id))
    && (forall i, j :: 0 <= i < j < |f.dispatches| ==> f.dispatches[i].request != f.dispatches[j].request)
    && (forall k :: 0 <= k < |f.outbox| ==> EventSound(f, f.outbox[k]))
    && (forall j, k :: 0 <= j < k < |f.outbox| ==> f.outbox[j].dispatch != f.outbox[k].dispatch)
  }

  /** A fleet's row in progress and an open pairing share the driver exactly when they share the vehicle. */
  predicate Agree(row: Assignment, p: Pairing) {
    row.status.ACTIVE? && p.unassignedAt.None? ==> (row.driver == p.driver <==> row.vehicle == p.vehicle)
  }

  ghost predicate PairingsSound(f: Tables) {
    && (forall i, j :: 0 <= i < j < |f.pairings| && f.pairings[i].unassignedAt.None? && f.pairings[j].unassignedAt.None? ==>
          f.pairings[i].driver != f.pairings[j].driver && f.pairings[i].vehicle != f.pairings[j].vehicle)
    && (forall i, j :: 0 <= i < |f.assignments| && 0 <= j < |f.pairings| && f.assignments[i].owner.Provider? ==>
          Agree(f.assignments[i], f.pairings[j]))
  }

  ghost predicate Sound(f: Tables) { RowsSound(f) && HistorySound(f) && PairingsSound(f) }

  // ---------------------------------------------------------------- frames

  lemma RowStays(rows: seq<Assignment>, after: seq<Assignment>, id: nat, status: AssignmentStatus)
    requires |rows| <= |after|
    requires forall i :: 0 <= i < |rows| && rows[i].dispatch == id && rows[i].status == status ==> after[i] == rows[i]
    ensures FindRow(rows, id, status).Some? ==> FindRow(after, id, status).Some?
  {
    if FindRow(rows, id, status).Some? {
      var k := FindRow(rows, id, status).value;
      assert after[k] == rows[k];
    }
  }

  lemma EventStays(outbox: seq<OutboxEvent>, after: seq<OutboxEvent>, id: nat)
    requires |outbox| <= |after| && after[..|outbox|] == outbox
    ensures FindEvent(outbox, id).Some? ==> FindEvent(after, id).Some?
  {
    if FindEvent(outbox, id).Some? {
      var k := FindEvent(outbox, id).value;
      assert after[k] == after[..|outbox|][k];
    }
  }

  /** Nothing the history speaks of was rewritten: rows in the states it needs, and requests as they were. */
  ghost predicate Harmless(f: Tables, after: Tables) {
    && after.dispatches == f.dispatches && after.outbox == f.outbox && after.requests == f.requests
    && |f.assignments| <= |after.assignments|
    && (forall i :: 0 <= i < |f.assignments| && f.assignments[i].status.COMPLETED? ==> after.assignments[i] == f.assignments[i])
    && (forall i :: 0 <= i < |f.assignments| && f.assignments[i].status.ACTIVE? && f.assignments[i].owner.Driver? ==>
          after.assignments[i] == f.assignments[i])
  }

  lemma HarmlessKeepsHistory(f: Tables, after: Tables)
    requires Sound(f) && Harmless(f, after)
    ensures HistorySound(after)
  {
    forall id | 0 <= id < |after.dispatches| ensures DispatchSound(after, id) {
      assert DispatchSound(f, id);
      RowStays(f.assignments, after.assignments, id, COMPLETED);
      if f.dispatches[id].status.CLAIMED? && f.dispatches[id].holder.Driver? {
        var k := FindRow(f.assignments, id, ACTIVE).value;
        assert RowSound(f.dispatches, f.assignments[k]);
        assert after.assignments[k] == f.assignments[k];
      }
    }
    forall k | 0 <= k < |after.outbox| ensures EventSound(after, after.outbox[k]) { assert EventSound(f, f.outbox[k]); }
  }

  /** A new row, by itself on its dispatch, its driver and its vehicle. */
  lemma AddRowIsSound(f: Tables, row: Assignment)
    requires Sound(f) && row.status.ACTIVE? && RowSound(f.dispatches, row)
    requires FindRow(f.assignments, row.dispatch, ACTIVE).None?
    requires !DriverBusy(f.assignments, row.driver, None) && !VehicleBusy(f.assignments, row.vehicle, None)
    requires row.owner.Provider? ==> !PairingConflict(f.pairings, row.driver, row.vehicle)
    ensures Sound(f.(assignments := f.assignments + [row]))
  {
    var after := f.(assignments := f.assignments + [row]);
    HarmlessKeepsHistory(f, after);
    forall i | 0 <= i < |f.assignments| ensures Apart(f.assignments[i], row) { }
    forall j | 0 <= j < |f.pairings| && row.owner.Provider? ensures Agree(row, f.pairings[j]) { }
  }

  /** A fleet's row in progress that ends without completing. */
  lemma CloseRowIsSound(f: Tables, k: nat, row: Assignment)
    requires Sound(f) && k < |f.assignments| && f.assignments[k].status.ACTIVE? && f.assignments[k].owner.Provider?
    requires row.status.ENDED? || row.status.REASSIGNED?
    requires row.dispatch == f.assignments[k].dispatch && row.owner == f.assignments[k].owner
    ensures Sound(f.(assignments := f.assignments[k := row]))
  {
    var after := f.(assignments := f.assignments[k := row]);
    assert RowSound(f.dispatches, f.assignments[k]);
    HarmlessKeepsHistory(f, after);
    forall i, j | 0 <= i < j < |after.assignments| ensures Apart(after.assignments[i], after.assignments[j]) {
      assert Apart(f.assignments[i], f.assignments[j]);
    }
  }

  lemma CreateIsSound(f: Tables, id: nat, driver: nat, vehicle: nat, provider: nat, documents: bool)
    requires Sound(f)
    ensures Sound(CreateStep(f, id, driver, vehicle, provider, documents).0)
  {
    if CreateStep(f, id, driver, vehicle, provider, documents).0 != f {
      AddRowIsSound(f, Fresh(id, Provider(provider), driver, vehicle, f.clock));
    }
  }

  lemma ReassignIsSound(f: Tables, id: nat, driver: nat, vehicle: nat, provider: nat, reason: EndReason, documents: bool)
    requires Sound(f)
    ensures Sound(ReassignStep(f, id, driver, vehicle, provider, reason, documents).0)
  {
    if ReassignStep(f, id, driver, vehicle, provider, reason, documents).0 != f {
      var k := FindRow(f.assignments, id, ACTIVE).value;
      assert RowSound(f.dispatches, f.assignments[k]);
      var closed := Close(f.assignments[k], REASSIGNED, f.clock, Some(reason));
      CloseRowIsSound(f, k, closed);
      var middle := f.(assignments := f.assignments[k := closed]);
      forall i | 0 <= i < |middle.assignments| && middle.assignments[i].status.ACTIVE?
        ensures middle.assignments[i].dispatch != id && middle.assignments[i].driver != driver
             && middle.assignments[i].vehicle != vehicle
      {
        assert Apart(f.assignments[if i < k then i else k], f.assignments[if i < k then k else i]);
        assert Some(i) != Some(k);
      }
      AddRowIsSound(middle, Fresh(id, Provider(provider), driver, vehicle, f.clock));
    }
  }

  lemma EndIsSound(f: Tables, id: nat, provider: nat, reason: EndReason)
    requires Sound(f)
    ensures Sound(EndStep(f, id, provider, reason).0)
  {
    if EndStep(f, id, provider, reason).0 != f {
      var k := FindRow(f.assignments, id, ACTIVE).value;
      assert RowSound(f.dispatches, f.assignments[k]);
      CloseRowIsSound(f, k, Close(f.assignments[k], ENDED, f.clock, Some(reason)));
    }
  }

  lemma PairIsSound(f: Tables, provider: nat, driver: nat, vehicle: nat, documents: bool)
    requires Sound(f)
    ensures Sound(AssignStep(f, provider, driver, vehicle, documents).0)
  {
    var after := AssignStep(f, provider, driver, vehicle, documents).0;
    if after != f {
      HarmlessKeepsHistory(f, after);
      forall i | 0 <= i < |f.assignments| ensures Agree(f.assignments[i], after.pairings[|f.pairings|]) { }
    }
  }

  lemma UnpairIsSound(f: Tables, provider: nat, driver: nat)
    requires Sound(f)
    ensures Sound(UnassignStep(f, provider, driver).0)
  {
    var after := UnassignStep(f, provider, driver).0;
    HarmlessKeepsHistory(f, after);
    forall i, j | 0 <= i < |after.assignments| && 0 <= j < |after.pairings| && after.assignments[i].owner.Provider?
      ensures Agree(after.assignments[i], after.pairings[j])
    { assert Agree(f.assignments[i], f.pairings[j]); }
  }

  /** An idle dispatch may be rewritten as long as it stays undelivered and keeps its request. */
  lemma WriteIsSound(f: Tables, id: nat, d: Dispatch)
    requires Sound(f) && id < |f.dispatches|
    requires FindRow(f.assignments, id, ACTIVE).None? && !f.dispatches[id].status.DELIVERED?
    requires d.request == f.dispatches[id].request && DispatchSound(Write(f, id, d), id) && !d.status.DELIVERED?
    ensures Sound(Write(f, id, d))
  {
    var after := Write(f, id, d);
    forall i | 0 <= i < |after.assignments| ensures RowSound(after.dispatches, after.assignments[i]) {
      assert RowSound(f.dispatches, f.assignments[i]);
    }
    forall other | 0 <= other < |after.dispatches| ensures DispatchSound(after, other) {
      if other != id { assert DispatchSound(f, other); }
    }
    forall k | 0 <= k < |after.outbox| ensures EventSound(after, after.outbox[k]) { assert EventSound(f, f.outbox[k]); }
  }

  lemma OpenIsIdle(f: Tables, id: nat)
    requires Sound(f) && id < |f.dispatches| && !f.dispatches[id].status.CLAIMED?
    ensures FindRow(f.assignments, id, ACTIVE).None?
  {
    forall i | 0 <= i < |f.assignments| && f.assignments[i].dispatch == id ensures !f.assignments[i].status.ACTIVE? {
      assert RowSound(f.dispatches, f.assignments[i]);
    }
  }

  lemma ClaimIsSound(f: Tables, id: nat, provider: nat, eligible: bool, paid: bool)
    requires Sound(f)
    ensures Sound(ClaimStep(f, id, provider, eligible, paid).0)
  {
    var after := ClaimStep(f, id, provider, eligible, paid).0;
    if after != f {
      assert DispatchSound(f, id);
      OpenIsIdle(f, id);
      WriteIsSound(f, id, after.dispatches[id]);
    }
  }

  lemma NextRoundIsSound(f: Tables, id: nat, window: Window, joined: set<nat>, over: bool)
    requires Sound(f)
    ensures Sound(NextRoundStep(f, id, window, joined, over))
  {
    var after := NextRoundStep(f, id, window, joined, over);
    if after != f {
      assert DispatchSound(f, id);
      OpenIsIdle(f, id);
      WriteIsSound(f, id, after.dispatches[id]);
    }
  }

  lemma ReleaseIsSound(f: Tables, id: nat, provider: nat, paid: bool)
    requires Sound(f)
    ensures Sound(ReleaseStep(f, id, provider, paid).0)
  {
    var after := ReleaseStep(f, id, provider, paid).0;
    if after != f {
      assert DispatchSound(f, id);
      assert f.requests[f.dispatches[id].request].cancelledAt.None?;
      WriteIsSound(f, id, after.dispatches[id]);
    }
  }

  /** The claim and its row appear together. */
  lemma TakeIsSound(f: Tables, id: nat, driver: nat, vehicle: nat, open: bool, documents: bool, paid: bool)
    requires Sound(f)
    ensures Sound(TakeStep(f, id, driver, vehicle, open, documents, paid).0)
  {
    var (after, r) := TakeStep(f, id, driver, vehicle, open, documents, paid);
    if after != f {
      assert DispatchSound(f, id);
      OpenIsIdle(f, id);
      if r.Err? {
        WriteIsSound(f, id, after.dispatches[id]);
      } else {
        TakenRows(f, id, driver, vehicle);
        TakenHistory(f, id, driver, vehicle);
      }
    }
  }

  function Taken(f: Tables, id: nat, driver: nat, vehicle: nat): Tables
    requires id < |f.dispatches|
  {
    Write(f, id, f.dispatches[id].(status := CLAIMED, holder := Driver(driver)))
      .(assignments := f.assignments + [Fresh(id, Driver(driver), driver, vehicle, f.clock)])
  }

  lemma TakenRows(f: Tables, id: nat, driver: nat, vehicle: nat)
    requires Sound(f) && id < |f.dispatches| && f.dispatches[id].status.OPEN?
    requires !DriverBusy(f.assignments, driver, None) && !VehicleBusy(f.assignments, vehicle, None)
    ensures RowsSound(Taken(f, id, driver, vehicle)) && PairingsSound(Taken(f, id, driver, vehicle))
  {
    var after := Taken(f, id, driver, vehicle);
    var row := after.assignments[|f.assignments|];
    forall i | 0 <= i < |f.assignments|
      ensures RowSound(after.dispatches, f.assignments[i]) && Apart(f.assignments[i], row)
    {
      assert RowSound(f.dispatches, f.assignments[i]);
    }
  }

  lemma TakenHistory(f: Tables, id: nat, driver: nat, vehicle: nat)
    requires Sound(f) && id < |f.dispatches| && f.dispatches[id].status.OPEN?
    ensures HistorySound(Taken(f, id, driver, vehicle))
  {
    var after := Taken(f, id, driver, vehicle);
    assert DispatchSound(f, id);
    assert after.assignments[|f.assignments|].dispatch == id;
    forall other | 0 <= other < |after.dispatches| ensures DispatchSound(after, other) {
      assert DispatchSound(f, other);
      RowStays(f.assignments, after.assignments, other, ACTIVE);
      RowStays(f.assignments, after.assignments, other, COMPLETED);
    }
    forall k | 0 <= k < |after.outbox| ensures EventSound(after, after.outbox[k]) { assert EventSound(f, f.outbox[k]); }
  }

  /** A row that ends together with its dispatch leaving its holder. */
  lemma GiveBackIsSound(f: Tables, id: nat, driver: nat, reason: EndReason, paid: bool)
    requires Sound(f)
    ensures Sound(GiveBackStep(f, id, driver, reason, paid).0)
  {
    var after := GiveBackStep(f, id, driver, reason, paid).0;
    if after != f {
      assert DispatchSound(f, id);
      var k := FindRow(f.assignments, id, ACTIVE).value;
      assert RowSound(f.dispatches, f.assignments[k]);
      OnlyActive(f, id, k);
      forall i, j | 0 <= i < j < |after.assignments| ensures Apart(after.assignments[i], after.assignments[j]) {
        assert Apart(f.assignments[i], f.assignments[j]);
      }
      forall i | 0 <= i < |after.assignments| ensures RowSound(after.dispatches, after.assignments[i]) {
        assert RowSound(f.dispatches, f.assignments[i]);
      }
      UndeliveredHistory(f, after, id);
    }
  }

  lemma OnlyActive(f: Tables, id: nat, k: nat)
    requires RowsSound(f) && k < |f.assignments| && f.assignments[k].dispatch == id && f.assignments[k].status.ACTIVE?
    ensures forall i :: 0 <= i < |f.assignments| && i != k && f.assignments[i].dispatch == id ==> !f.assignments[i].status.ACTIVE?
  {
    forall i | 0 <= i < |f.assignments| && i != k && f.assignments[i].dispatch == id
      ensures !f.assignments[i].status.ACTIVE?
    {
      assert Apart(f.assignments[if i < k then i else k], f.assignments[if i < k then k else i]);
    }
  }

  lemma OnlyCompleted(f: Tables, id: nat, k: nat)
    requires RowsSound(f) && k < |f.assignments| && f.assignments[k].dispatch == id && f.assignments[k].status.COMPLETED?
    ensures forall i :: 0 <= i < |f.assignments| && i != k && f.assignments[i].dispatch == id ==> !f.assignments[i].status.COMPLETED?
  {
    forall i | 0 <= i < |f.assignments| && i != k && f.assignments[i].dispatch == id
      ensures !f.assignments[i].status.COMPLETED?
    {
      assert Apart(f.assignments[if i < k then i else k], f.assignments[if i < k then k else i]);
    }
  }

  /** One undelivered dispatch changes, with rows of its own; the history of every other stays. */
  lemma UndeliveredHistory(f: Tables, after: Tables, id: nat)
    requires Sound(f) && id < |f.dispatches| == |after.dispatches| && !f.dispatches[id].status.DELIVERED?
    requires forall other :: 0 <= other < |f.dispatches| && other != id ==> after.dispatches[other] == f.dispatches[other]
    requires after.dispatches[id].request == f.dispatches[id].request && after.outbox == f.outbox && after.requests == f.requests
    requires |after.assignments| == |f.assignments|
    requires forall i :: 0 <= i < |f.assignments| && f.assignments[i].dispatch != id ==> after.assignments[i] == f.assignments[i]
    requires DispatchSound(after, id)
    ensures HistorySound(after)
  {
    forall other | 0 <= other < |after.dispatches| ensures DispatchSound(after, other) {
      if other != id {
        assert DispatchSound(f, other);
        RowStays(f.assignments, after.assignments, other, ACTIVE);
        RowStays(f.assignments, after.assignments, other, COMPLETED);
      }
    }
    forall k | 0 <= k < |after.outbox| ensures EventSound(after, after.outbox[k]) { assert EventSound(f, f.outbox[k]); }
  }

  lemma CancelIsSound(f: Tables, request: nat, paid: bool)
    requires Sound(f)
    ensures Sound(CancelStep(f, request, paid).0)
  {
    var after := CancelStep(f, request, paid).0;
    if after != f {
      forall i | 0 <= i < |after.assignments| ensures RowSound(after.dispatches, after.assignments[i]) {
        assert RowSound(f.dispatches, f.assignments[i]);
      }
      forall i, j | 0 <= i < j < |after.assignments| ensures Apart(after.assignments[i], after.assignments[j]) {
        assert Apart(f.assignments[i], f.assignments[j]);
      }
      CancelledHistory(f, request, paid);
      forall i, j | 0 <= i < |after.assignments| && 0 <= j < |after.pairings| && after.assignments[i].owner.Provider?
        ensures Agree(after.assignments[i], after.pairings[j])
      { assert Agree(f.assignments[i], f.pairings[j]); }
    }
  }

  lemma CancelledHistory(f: Tables, request: nat, paid: bool)
    requires Sound(f)
    ensures HistorySound(CancelStep(f, request, paid).0)
  {
    var after := CancelStep(f, request, paid).0;
    if after != f {
      forall id | 0 <= id < |after.dispatches| ensures DispatchSound(after, id) {
        assert DispatchSound(f, id);
        RowStays(f.assignments, after.assignments, id, COMPLETED);
        if !Closing(f, request, id) { RowStays(f.assignments, after.assignments, id, ACTIVE); }
      }
      forall k | 0 <= k < |after.outbox| ensures EventSound(after, after.outbox[k]) { assert EventSound(f, f.outbox[k]); }
    }
  }

  // ---------------------------------------------------------------- completion keeps history

  lemma CompleteIsSound(f: Tables, id: nat, actor: Holder, user: nat)
    requires Sound(f)
    ensures Sound(CompleteStep(f, id, actor, user).0)
  {
    var after := CompleteStep(f, id, actor, user).0;
    if after != f {
      assert DispatchSound(f, id);
      var k := FindRow(f.assignments, id, ACTIVE).value;
      assert RowSound(f.dispatches, f.assignments[k]);
      OnlyActive(f, id, k);
      CompletionRows(f, id, actor, user);
      CompletedHistory(f, id, actor, user);
      forall i, j | 0 <= i < |after.assignments| && 0 <= j < |after.pairings| && after.assignments[i].owner.Provider?
        ensures Agree(after.assignments[i], after.pairings[j])
      { assert Agree(f.assignments[i], f.pairings[j]); }
    }
  }

  lemma CompletionRows(f: Tables, id: nat, actor: Holder, user: nat)
    requires Sound(f) && CompleteStep(f, id, actor, user).0 != f
    ensures RowsSound(CompleteStep(f, id, actor, user).0)
  {
    var after := CompleteStep(f, id, actor, user).0;
    var k := FindRow(f.assignments, id, ACTIVE).value;
    assert RowSound(f.dispatches, f.assignments[k]);
    OnlyActive(f, id, k);
    forall i | 0 <= i < |after.assignments| ensures RowSound(after.dispatches, after.assignments[i]) {
      assert RowSound(f.dispatches, f.assignments[i]);
    }
    forall i, j | 0 <= i < j < |after.assignments| ensures Apart(after.assignments[i], after.assignments[j]) {
      assert Apart(f.assignments[i], f.assignments[j]);
      assert RowSound(f.dispatches, f.assignments[i]) && RowSound(f.dispatches, f.assignments[j]);
    }
  }

  lemma CompletedHistory(f: Tables, id: nat, actor: Holder, user: nat)
    requires Sound(f) && CompleteStep(f, id, actor, user).0 != f
    ensures HistorySound(CompleteStep(f, id, actor, user).0)
  {
    var after := CompleteStep(f, id, actor, user).0;
    var k := FindRow(f.assignments, id, ACTIVE).value;
    assert after.assignments[k].dispatch == id && after.assignments[k].status.COMPLETED?;
    assert after.outbox[|f.outbox|].dispatch == id;
    assert DispatchSound(f, id);
    forall other | 0 <= other < |after.dispatches| ensures DispatchSound(after, other) {
      assert DispatchSound(f, other);
      if other != id {
        RowStays(f.assignments, after.assignments, other, ACTIVE);
        RowStays(f.assignments, after.assignments, other, COMPLETED);
      }
      EventStays(f.outbox, after.outbox, other);
    }
    CompletedEvents(f, id, actor, user);
  }

  lemma CompletedEvents(f: Tables, id: nat, actor: Holder, user: nat)
    requires Sound(f) && CompleteStep(f, id, actor, user).0 != f
    ensures var after := CompleteStep(f, id, actor, user).0;
            && (forall e :: 0 <= e < |after.outbox| ==> EventSound(after, after.outbox[e]))
            && (forall e :: 0 <= e < |f.outbox| ==> f.outbox[e].dispatch != id)
  {
    var after := CompleteStep(f, id, actor, user).0;
    assert DispatchSound(f, id);
    OnlyDispatchOf(after, id);
    forall e | 0 <= e < |after.outbox| ensures EventSound(after, after.outbox[e]) {
      if e < |f.outbox| { assert EventSound(f, f.outbox[e]); }
    }
    forall e | 0 <= e < |f.outbox| ensures f.outbox[e].dispatch != id { assert EventSound(f, f.outbox[e]); }
  }

  lemma OnlyDispatchOf(f: Tables, id: nat)
    requires id < |f.dispatches|
    requires forall i, j :: 0 <= i < j < |f.dispatches| ==> f.dispatches[i].request != f.dispatches[j].request
    ensures NewestDispatch(f.dispatches, f.dispatches[id].request) == Some(id)
  {
    assert NewestDispatch(f.dispatches, f.dispatches[id].request).Some?;
  }

  lemma SettingsAreSound(f: Tables, op: Op)
    requires Sound(f) && (op.Tick? || op.SetProvider? || op.SetDriver? || op.SetVehicle?)
    ensures Sound(Apply(f, op))
  {
    HarmlessKeepsHistory(f, Apply(f, op));
  }

  lemma NewRequestIsSound(f: Tables, client: nat)
    requires Sound(f)
    ensures Sound(Apply(f, NewRequest(client)))
  {
    var after := Apply(f, NewRequest(client));
    forall id | 0 <= id < |after.dispatches| ensures DispatchSound(after, id) { assert DispatchSound(f, id); }
    forall k | 0 <= k < |after.outbox| ensures EventSound(after, after.outbox[k]) { assert EventSound(f, f.outbox[k]); }
  }

  lemma PublishIsSound(f: Tables, request: nat, window: Window, candidates: set<nat>)
    requires Sound(f)
    ensures Sound(PublishStep(f, request, window, candidates))
  {
    var after := PublishStep(f, request, window, candidates);
    if after != f {
      forall i | 0 <= i < |after.assignments| ensures RowSound(after.dispatches, after.assignments[i]) {
        assert RowSound(f.dispatches, f.assignments[i]);
      }
      forall id | 0 <= id < |after.dispatches| ensures DispatchSound(after, id) {
        if id < |f.dispatches| { assert DispatchSound(f, id); }
      }
      forall k | 0 <= k < |after.outbox| ensures EventSound(after, after.outbox[k]) { assert EventSound(f, f.outbox[k]); }
    }
  }

  /** The steps that win, lose or cancel a dispatch. */
  lemma DispatchStepIsSound(f: Tables, op: Op)
    requires Sound(f)
    requires op.Publish? || op.NextRound? || op.Claim? || op.Take? || op.Release? || op.GiveBack? || op.CancelRequest?
    ensures Sound(Apply(f, op))
  {
    match op
    case Publish(request, window, candidates) => PublishIsSound(f, request, window, candidates);
    case NextRound(id, window, joined, over) => NextRoundIsSound(f, id, window, joined, over);
    case Claim(id, provider, eligible, paid) => ClaimIsSound(f, id, provider, eligible, paid);
    case Take(id, driver, vehicle, open, documents, paid) => TakeIsSound(f, id, driver, vehicle, open, documents, paid);
    case Release(id, provider, paid) => ReleaseIsSound(f, id, provider, paid);
    case GiveBack(id, driver, reason, paid) => GiveBackIsSound(f, id, driver, reason, paid);
    case CancelRequest(request, paid) => CancelIsSound(f, request, paid);
  }

  lemma AssignmentStepIsSound(f: Tables, op: Op)
    requires Sound(f) && (op.Create? || op.Reassign? || op.End?)
    ensures Sound(Apply(f, op))
  {
    match op
    case Create(id, driver, vehicle, provider, documents) => CreateIsSound(f, id, driver, vehicle, provider, documents);
    case Reassign(id, driver, vehicle, provider, reason, documents) =>
      ReassignIsSound(f, id, driver, vehicle, provider, reason, documents);
    case End(id, provider, reason) => EndIsSound(f, id, provider, reason);
  }

  lemma PairingStepIsSound(f: Tables, op: Op)
    requires Sound(f) && (op.Pair? || op.Unpair? || op.Complete?)
    ensures Sound(Apply(f, op))
  {
    match op
    case Pair(provider, driver, vehicle, documents) => PairIsSound(f, provider, driver, vehicle, documents);
    case Unpair(provider, driver) => UnpairIsSound(f, provider, driver);
    case Complete(id, actor, user) => CompleteIsSound(f, id, actor, user);
  }

  lemma StepIsSound(f: Tables, op: Op)
    requires Sound(f)
    ensures Sound(Apply(f, op))
  {
    if op.NewRequest? { NewRequestIsSound(f, op.client); }
    else if op.Tick? || op.SetProvider? || op.SetDriver? || op.SetVehicle? { SettingsAreSound(f, op); }
    else if op.Create? || op.Reassign? || op.End? { AssignmentStepIsSound(f, op); }
    else if op.Pair? || op.Unpair? || op.Complete? { PairingStepIsSound(f, op); }
    else { DispatchStepIsSound(f, op); }
  }

  lemma {:induction false} RunIsSound(f: Tables, ops: seq<Op>)
    requires Sound(f)
    ensures Sound(Run(f, ops))
    decreases |ops|
  {
    if ops != [] {
      StepIsSound(f, ops[0]);
      RunIsSound(Apply(f, ops[0]), ops[1..]);
    }
  }

  // ---------------------------------------------------------------- main results: exclusion

  /**
   * After any run, at most one active row per dispatch, per driver and per vehicle, fleet and independent
   * alike; an active row's dispatch is claimed by that row's owner; a fleet's active row shares its driver
   * with an open pairing exactly when it shares its vehicle; an independent claim always has its row.
   */
  lemma NobodyIsInTwoPlaces(ops: seq<Op>, i: nat, j: nat, k: nat, id: nat)
    ensures var f := Run(START, ops);
            var rows := f.assignments;
            && (i < |rows| && j < |rows| && i != j && rows[i].status.ACTIVE? && rows[j].status.ACTIVE? ==>
                  rows[i].dispatch != rows[j].dispatch && rows[i].driver != rows[j].driver && rows[i].vehicle != rows[j].vehicle)
            && (i < |rows| && rows[i].status.ACTIVE? ==>
                  && rows[i].dispatch < |f.dispatches|
                  && f.dispatches[rows[i].dispatch].status.CLAIMED? && f.dispatches[rows[i].dispatch].holder == rows[i].owner)
            && (i < |rows| && rows[i].status.ACTIVE? && rows[i].owner.Provider?
                && k < |f.pairings| && f.pairings[k].unassignedAt.None? ==>
                  (rows[i].driver == f.pairings[k].driver <==> rows[i].vehicle == f.pairings[k].vehicle))
            && (id < |f.dispatches| && f.dispatches[id].status.CLAIMED? && f.dispatches[id].holder.Driver? ==>
                  FindRow(rows, id, ACTIVE).Some?)
  {
    RunIsSound(START, ops);
    var f := Run(START, ops);
    var rows := f.assignments;
    if i < |rows| && j < |rows| && i != j { assert Apart(rows[if i < j then i else j], rows[if i < j then j else i]); }
    if i < |rows| { assert RowSound(f.dispatches, rows[i]); }
    if i < |rows| && rows[i].owner.Provider? && k < |f.pairings| { assert Agree(rows[i], f.pairings[k]); }
    if id < |f.dispatches| { assert DispatchSound(f, id); }
  }

  /** At most one open pairing per driver and per vehicle. */
  lemma PairingsAreOneToOne(ops: seq<Op>, i: nat, j: nat)
    ensures var ps := Run(START, ops).pairings;
            i < |ps| && j < |ps| && i != j && ps[i].unassignedAt.None? && ps[j].unassignedAt.None? ==>
              ps[i].driver != ps[j].driver && ps[i].vehicle != ps[j].vehicle
  {
    RunIsSound(START, ops);
  }

  /** Every row in progress agrees with every open pairing, whoever drives. */
  predicate AllAgree(f: Tables) {
    forall i, j :: 0 <= i < |f.assignments| && 0 <= j < |f.pairings| ==> Agree(f.assignments[i], f.pairings[j])
  }

  /**
   * A take never looks at pairings, so it keeps the agreement of all rows exactly when the driver and its
   * own vehicle conflict with no open pairing: a driver paired with a fleet vehicle breaks it.
   */
  lemma TakeKeepsAgreementIff(f: Tables, id: nat, driver: nat, vehicle: nat, open: bool, documents: bool, paid: bool)
    requires AllAgree(f) && TakeStep(f, id, driver, vehicle, open, documents, paid).1.Ok?
    ensures AllAgree(TakeStep(f, id, driver, vehicle, open, documents, paid).0) <==> !PairingConflict(f.pairings, driver, vehicle)
  {
    var after := TakeStep(f, id, driver, vehicle, open, documents, paid).0;
    var n := |f.assignments|;
    assert after.assignments[n] == Fresh(id, Driver(driver), driver, vehicle, f.clock);
    if PairingConflict(f.pairings, driver, vehicle) {
      var j :| 0 <= j < |f.pairings| && f.pairings[j].unassignedAt.None?
               && (f.pairings[j].driver == driver) != (f.pairings[j].vehicle == vehicle);
      assert !Agree(after.assignments[n], f.pairings[j]);
    } else {
      forall i, j | 0 <= i < |after.assignments| && 0 <= j < |after.pairings|
        ensures Agree(after.assignments[i], after.pairings[j])
      { if i < n { assert Agree(f.assignments[i], f.pairings[j]); } }
    }
  }

  /** Driver 1 of fleet 1, also approved to work alone, with the fleet's vehicle 1 and its own vehicle 2. */
  const SETUP: seq<Op> := [
    SetProvider(1, PROVIDER_ACTIVE), SetDriver(1, DriverRow(Some(1), DRIVER_ACTIVE, true, true)),
    SetVehicle(1, VehicleRow(Provider(1), VEHICLE_ACTIVE)), SetVehicle(2, VehicleRow(Driver(1), VEHICLE_ACTIVE)),
    NewRequest(0), Publish(0, Window(10, 0, 1, false), {})]

  const READY := Tables(
    0, map[1 := PROVIDER_ACTIVE], map[1 := DriverRow(Some(1), DRIVER_ACTIVE, true, true)],
    map[1 := VehicleRow(Provider(1), VEHICLE_ACTIVE), 2 := VehicleRow(Driver(1), VEHICLE_ACTIVE)],
    [Request(0, 0, None)], [Dispatch(0, OPEN, Window(10, 0, 1, false), Nobody, map[], None, None, None)], [], [], [])

  lemma ReadyIsReached()
    ensures Run(START, SETUP) == READY
  {
    var f2 := START.(providers := map[1 := PROVIDER_ACTIVE], drivers := READY.drivers);
    assert Run(START, SETUP) == Run(f2, SETUP[2..]) by { assert Apply(Apply(START, SETUP[0]), SETUP[1]) == f2; }
    var f4 := f2.(vehicles := READY.vehicles);
    assert Run(f2, SETUP[2..]) == Run(f4, SETUP[4..]) by { assert Apply(Apply(f2, SETUP[2]), SETUP[3]) == f4; }
    var f5 := f4.(requests := READY.requests);
    assert Run(f4, SETUP[4..]) == Run(READY, SETUP[6..]) by {
      assert Apply(f4, SETUP[4]) == f5;
      assert Apply(f5, SETUP[5]).dispatches[0].candidates == map[];
      assert Apply(f5, SETUP[5]) == READY;
    }
  }

  const PAIRED := READY.(pairings := [Pairing(1, 1, 1, 0, None)])

  lemma TakingWhilePaired()
    ensures AssignStep(READY, 1, 1, 1, true).0 == PAIRED
    ensures TakeStep(PAIRED, 0, 1, 2, true, true, true).1.Ok? && AllAgree(PAIRED) && PairingConflict(PAIRED.pairings, 1, 2)
  {
    assert PAIRED.pairings[0].driver == 1;
  }

  /** It is paired with vehicle 1, takes the dispatch with vehicle 2, and the two rows disagree. */
  lemma IndependentWorkMayContradictAPairing()
    ensures var paired := AssignStep(Run(START, SETUP), 1, 1, 1, true).0;
            AllAgree(paired) && !AllAgree(TakeStep(paired, 0, 1, 2, true, true, true).0)
  {
    ReadyIsReached();
    TakingWhilePaired();
    TakeKeepsAgreementIff(PAIRED, 0, 1, 2, true, true, true);
  }

  lemma {:induction false} RunUnfolds(f: Tables, first: seq<Op>, rest: seq<Op>)
    ensures Run(f, first + rest) == Run(Run(f, first), rest)
    decreases |first|
  {
    if first == [] {
      assert first + rest == rest;
    } else {
      assert (first + rest)[1..] == first[1..] + rest;
      RunUnfolds(Apply(f, first[0]), first[1..], rest);
    }
  }

  // ---------------------------------------------------------------- main results: history is only added to

  predicate RowKept(row: Assignment, later: Assignment) {
    && later.dispatch == row.dispatch && later.owner == row.owner && later.driver == row.driver
    && later.vehicle == row.vehicle && later.assignedAt == row.assignedAt
    && (!row.status.ACTIVE? ==> later == row)
  }

  predicate PairingKept(p: Pairing, later: Pairing) {
    && later == p.(unassignedAt := later.unassignedAt)
    && (p.unassignedAt.Some? ==> later == p)
    && (later.unassignedAt.Some? && p.unassignedAt.None? ==> later.unassignedAt.value >= p.assignedAt)
  }

  ghost predicate Kept(f: Tables, later: Tables) {
    && |f.assignments| <= |later.assignments| && |f.pairings| <= |later.pairings|
    && |f.dispatches| <= |later.dispatches| && |f.requests| <= |later.requests| && |f.outbox| <= |later.outbox|
    && (forall i :: 0 <= i < |f.assignments| ==> RowKept(f.assignments[i], later.assignments[i]))
    && (forall i :: 0 <= i < |f.pairings| ==> PairingKept(f.pairings[i], later.pairings[i]))
    && (forall i :: 0 <= i < |f.dispatches| ==>
          && later.dispatches[i].request == f.dispatches[i].request
          && (f.dispatches[i].status.DELIVERED? ==> later.dispatches[i] == f.dispatches[i]))
    && (forall i :: 0 <= i < |f.requests| ==> later.requests[i] == f.requests[i].(cancelledAt := later.requests[i].cancelledAt))
    && (forall i :: 0 <= i < |f.outbox| ==> later.outbox[i] == f.outbox[i])
  }

  lemma WriteIsKept(f: Tables, id: nat, d: Dispatch)
    requires id < |f.dispatches| && !f.dispatches[id].status.DELIVERED? && d.request == f.dispatches[id].request
    ensures Kept(f, Write(f, id, d))
  {}

  lemma RowsAreKept(f: Tables, rows: seq<Assignment>)
    requires |f.assignments| <= |rows| && forall i :: 0 <= i < |f.assignments| ==> RowKept(f.assignments[i], rows[i])
    ensures Kept(f, f.(assignments := rows))
  {}

  lemma AssignmentsAreKept(f: Tables, op: Op)
    requires op.Create? || op.Reassign? || op.End?
    ensures Kept(f, Apply(f, op))
  {
    var rows := Apply(f, op).assignments;
    assert Apply(f, op) == f.(assignments := rows);
    forall i | 0 <= i < |f.assignments| ensures RowKept(f.assignments[i], rows[i]) {}
    RowsAreKept(f, rows);
  }

  lemma PairingIsKept(f: Tables, op: Op)
    requires op.Pair? || op.Unpair?
    ensures Kept(f, Apply(f, op))
  {
    var after := Apply(f, op);
    assert after == f.(pairings := after.pairings);
  }

  lemma ClaimIsKept(f: Tables, id: nat, provider: nat, eligible: bool, paid: bool)
    ensures Kept(f, ClaimStep(f, id, provider, eligible, paid).0)
  {
    var after := ClaimStep(f, id, provider, eligible, paid).0;
    if after != f { WriteIsKept(f, id, after.dispatches[id]); }
  }

  lemma ReleaseIsKept(f: Tables, id: nat, provider: nat, paid: bool)
    ensures Kept(f, ReleaseStep(f, id, provider, paid).0)
  {
    var after := ReleaseStep(f, id, provider, paid).0;
    if after != f { WriteIsKept(f, id, after.dispatches[id]); }
  }

  lemma NextRoundIsKept(f: Tables, id: nat, window: Window, joined: set<nat>, over: bool)
    ensures Kept(f, NextRoundStep(f, id, window, joined, over))
  {
    var after := NextRoundStep(f, id, window, joined, over);
    if after != f { WriteIsKept(f, id, after.dispatches[id]); }
  }

  lemma PublishIsKept(f: Tables, request: nat, window: Window, candidates: set<nat>)
    ensures Kept(f, PublishStep(f, request, window, candidates))
  {}

  lemma TakeIsKept(f: Tables, id: nat, driver: nat, vehicle: nat, open: bool, documents: bool, paid: bool)
    ensures Kept(f, TakeStep(f, id, driver, vehicle, open, documents, paid).0)
  {
    var after := TakeStep(f, id, driver, vehicle, open, documents, paid).0;
    if after != f {
      var written := Write(f, id, after.dispatches[id]);
      WriteIsKept(f, id, after.dispatches[id]);
      RowsAreKept(written, after.assignments);
      KeptTwice(f, written, after);
    }
  }

  lemma GiveBackIsKept(f: Tables, id: nat, driver: nat, reason: EndReason, paid: bool)
    ensures Kept(f, GiveBackStep(f, id, driver, reason, paid).0)
  {
    var after := GiveBackStep(f, id, driver, reason, paid).0;
    if after != f {
      var written := Write(f, id, after.dispatches[id]);
      WriteIsKept(f, id, after.dispatches[id]);
      RowsAreKept(written, after.assignments);
      KeptTwice(f, written, after);
    }
  }

  lemma CancelIsKept(f: Tables, request: nat, paid: bool)
    ensures Kept(f, CancelStep(f, request, paid).0)
  {}

  lemma CompleteIsKept(f: Tables, id: nat, actor: Holder, user: nat)
    ensures Kept(f, CompleteStep(f, id, actor, user).0)
  {
    var after := CompleteStep(f, id, actor, user).0;
    if after != f {
      var ended := f.(assignments := after.assignments);
      var delivered := Write(ended, id, after.dispatches[id]);
      RowsAreKept(f, after.assignments);
      WriteIsKept(ended, id, after.dispatches[id]);
      KeptTwice(f, ended, delivered);
      assert after == delivered.(outbox := after.outbox);
      KeptTwice(f, delivered, after);
    }
  }

  lemma StepIsKept(f: Tables, op: Op)
    ensures Kept(f, Apply(f, op))
  {
    if op.Create? || op.Reassign? || op.End? { AssignmentsAreKept(f, op); }
    else if op.Pair? || op.Unpair? { PairingIsKept(f, op); }
    else if op.Claim? { ClaimIsKept(f, op.id, op.provider, op.eligible, op.paid); }
    else if op.Release? { ReleaseIsKept(f, op.id, op.provider, op.paid); }
    else if op.NextRound? { NextRoundIsKept(f, op.id, op.window, op.joined, op.over); }
    else if op.Publish? { PublishIsKept(f, op.request, op.window, op.candidates); }
    else if op.Take? { TakeIsKept(f, op.id, op.driver, op.vehicle, op.open, op.documents, op.paid); }
    else if op.GiveBack? { GiveBackIsKept(f, op.id, op.driver, op.reason, op.paid); }
    else if op.CancelRequest? { CancelIsKept(f, op.request, op.paid); }
    else if op.Complete? { CompleteIsKept(f, op.id, op.actor, op.user); }
  }

  lemma {:induction false} RunIsKept(f: Tables, ops: seq<Op>)
    ensures Kept(f, Run(f, ops))
    decreases |ops|
  {
    if ops != [] {
      StepIsKept(f, ops[0]);
      RunIsKept(Apply(f, ops[0]), ops[1..]);
      KeptTwice(f, Apply(f, ops[0]), Run(f, ops));
    }
  }

  lemma KeptTwice(f: Tables, middle: Tables, later: Tables)
    requires Kept(f, middle) && Kept(middle, later)
    ensures Kept(f, later)
  {
    forall i | 0 <= i < |f.assignments| ensures RowKept(f.assignments[i], later.assignments[i]) {
      assert RowKept(middle.assignments[i], later.assignments[i]);
    }
    forall i | 0 <= i < |f.pairings| ensures PairingKept(f.pairings[i], later.pairings[i]) {
      assert PairingKept(middle.pairings[i], later.pairings[i]);
    }
  }

  /** A closed row or pairing reads the same forever; an open one keeps who, what and when it started. */
  lemma ClosedRowsNeverChange(ops: seq<Op>, more: seq<Op>, i: nat)
    ensures var f := Run(START, ops);
            var later := Run(START, ops + more);
            && (i < |f.assignments| ==> i < |later.assignments| && RowKept(f.assignments[i], later.assignments[i]))
            && (i < |f.pairings| ==> i < |later.pairings| && PairingKept(f.pairings[i], later.pairings[i]))
            && (i < |f.outbox| ==> i < |later.outbox| && later.outbox[i] == f.outbox[i])
  {
    RunUnfolds(START, ops, more);
    RunIsKept(Run(START, ops), more);
  }

  // ---------------------------------------------------------------- main results: when rows and pairings agree

  /** Rows and pairings that were there before only close, so they go on agreeing. */
  lemma OldRowsAgree(f: Tables, after: Tables, i: nat, j: nat)
    requires AllAgree(f) && Kept(f, after) && i < |f.assignments| && j < |f.pairings|
    ensures Agree(after.assignments[i], after.pairings[j])
  {
    assert Agree(f.assignments[i], f.pairings[j]);
    assert RowKept(f.assignments[i], after.assignments[i]) && PairingKept(f.pairings[j], after.pairings[j]);
  }

  /** A new row of a fleet was checked against every open pairing. */
  lemma NewRowAgrees(f: Tables, op: Op, j: nat)
    requires (op.Create? || op.Reassign?) && j < |f.pairings|
    requires |Apply(f, op).assignments| == |f.assignments| + 1
    ensures Agree(Apply(f, op).assignments[|f.assignments|], f.pairings[j])
  {
    assert !PairingConflict(f.pairings, op.driver, op.vehicle);
  }

  lemma RowsAgree(f: Tables, op: Op)
    requires AllAgree(f) && (op.Create? || op.Reassign?)
    ensures AllAgree(Apply(f, op))
  {
    var after := Apply(f, op);
    StepIsKept(f, op);
    forall i, j | 0 <= i < |after.assignments| && 0 <= j < |after.pairings| ensures Agree(after.assignments[i], after.pairings[j]) {
      if i < |f.assignments| { OldRowsAgree(f, after, i, j); } else { NewRowAgrees(f, op, j); }
    }
  }

  /** A new pairing is of a driver and a vehicle that no row in progress has. */
  lemma PairingsAgree(f: Tables, op: Op)
    requires AllAgree(f) && op.Pair?
    ensures AllAgree(Apply(f, op))
  {
    var after := Apply(f, op);
    forall i, j | 0 <= i < |after.assignments| && 0 <= j < |after.pairings| ensures Agree(after.assignments[i], after.pairings[j]) {
      if j < |f.pairings| { assert Agree(f.assignments[i], f.pairings[j]); }
    }
  }

  predicate AddsNothing(f: Tables, after: Tables) {
    |after.assignments| == |f.assignments| && |after.pairings| == |f.pairings|
  }

  lemma OthersAddNothing(f: Tables, op: Op)
    requires !op.Take? && !op.Create? && !op.Reassign? && !op.Pair?
    ensures AddsNothing(f, Apply(f, op))
  {}

  /** An independent take whose driver or vehicle is paired otherwise. */
  predicate Contradicts(f: Tables, op: Op) {
    && op.Take? && TakeStep(f, op.id, op.driver, op.vehicle, op.open, op.documents, op.paid).1.Ok?
    && PairingConflict(f.pairings, op.driver, op.vehicle)
  }

  lemma ClosingAgrees(f: Tables, op: Op)
    requires AllAgree(f) && AddsNothing(f, Apply(f, op))
    ensures AllAgree(Apply(f, op))
  {
    var after := Apply(f, op);
    StepIsKept(f, op);
    forall i, j | 0 <= i < |after.assignments| && 0 <= j < |after.pairings| ensures Agree(after.assignments[i], after.pairings[j]) {
      OldRowsAgree(f, after, i, j);
    }
  }

  lemma RefusedTakeAddsNothing(f: Tables, op: Op)
    requires op.Take? && TakeStep(f, op.id, op.driver, op.vehicle, op.open, op.documents, op.paid).1.Err?
    ensures AddsNothing(f, Apply(f, op))
  {}

  /** Of all the steps only such a take ever breaks the agreement of rows and pairings. */
  lemma StepKeepsAgreementIff(f: Tables, op: Op)
    requires AllAgree(f)
    ensures AllAgree(Apply(f, op)) <==> !Contradicts(f, op)
  {
    if op.Take? && TakeStep(f, op.id, op.driver, op.vehicle, op.open, op.documents, op.paid).1.Ok? {
      TakeKeepsAgreementIff(f, op.id, op.driver, op.vehicle, op.open, op.documents, op.paid);
    } else if op.Create? || op.Reassign? {
      RowsAgree(f, op);
    } else if op.Pair? {
      PairingsAgree(f, op);
    } else {
      if op.Take? { RefusedTakeAddsNothing(f, op); } else { OthersAddNothing(f, op); }
      ClosingAgrees(f, op);
    }
  }

  /** Rows and pairings agree at every moment of the run, the first and the last included. */
  predicate AgreesThroughout(f: Tables, ops: seq<Op>)
    decreases |ops|
  {
    AllAgree(f) && (ops != [] ==> AgreesThroughout(Apply(f, ops[0]), ops[1..]))
  }

  predicate NeverContradicts(f: Tables, ops: seq<Op>)
    decreases |ops|
  {
    ops != [] ==> !Contradicts(f, ops[0]) && NeverContradicts(Apply(f, ops[0]), ops[1..])
  }

  /**
   * Every row in progress, fleet and independent alike, agrees with every open pairing throughout a run
   * if and only if no successful take of the run met a driver or a vehicle that was paired otherwise.
   */
  lemma RunsAgreeIff(ops: seq<Op>)
    ensures AgreesThroughout(START, ops) <==> NeverContradicts(START, ops)
  {
    RunAgreesIff(START, ops);
  }

  lemma {:induction false} RunAgreesIff(f: Tables, ops: seq<Op>)
    requires AllAgree(f)
    ensures AgreesThroughout(f, ops) <==> NeverContradicts(f, ops)
    decreases |ops|
  {
    if ops != [] {
      StepKeepsAgreementIff(f, ops[0]);
      if AllAgree(Apply(f, ops[0])) { RunAgreesIff(Apply(f, ops[0]), ops[1..]); }
    }
  }

  // ---------------------------------------------------------------- main results: delivered

  function CompletedRows(f: Tables, id: nat): set<nat> {
    set i | 0 <= i < |f.assignments| && f.assignments[i].dispatch == id && f.assignments[i].status.COMPLETED?
  }

  function EventsOf(f: Tables, id: nat): set<nat> {
    set k | 0 <= k < |f.outbox| && f.outbox[k].dispatch == id
  }

  predicate Delivered(f: Tables, id: nat) { id < |f.dispatches| && f.dispatches[id].status.DELIVERED? }

  lemma DeliveredHasOneRow(f: Tables, id: nat)
    requires Sound(f)
    ensures Delivered(f, id) ==> |CompletedRows(f, id)| == 1
    ensures !Delivered(f, id) ==> CompletedRows(f, id) == {}
    ensures forall i :: i in CompletedRows(f, id) ==> id < |f.dispatches| && f.assignments[i].endedAt == f.dispatches[id].deliveredAt
  {
    forall i | i in CompletedRows(f, id)
      ensures Delivered(f, id) && f.assignments[i].endedAt == f.dispatches[id].deliveredAt
    {
      assert RowSound(f.dispatches, f.assignments[i]);
    }
    if Delivered(f, id) {
      assert DispatchSound(f, id);
      var k := FindRow(f.assignments, id, COMPLETED).value;
      OnlyCompleted(f, id, k);
      assert CompletedRows(f, id) == {k};
    }
  }

  lemma DeliveredHasOneEvent(f: Tables, id: nat)
    requires Sound(f)
    ensures Delivered(f, id) ==> |EventsOf(f, id)| == 1
    ensures !Delivered(f, id) ==> EventsOf(f, id) == {}
    ensures forall k :: k in EventsOf(f, id) ==> id < |f.dispatches| && Some(f.outbox[k].occurredAt) == f.dispatches[id].deliveredAt
  {
    forall k | k in EventsOf(f, id)
      ensures Delivered(f, id) && Some(f.outbox[k].occurredAt) == f.dispatches[id].deliveredAt
    {
      assert EventSound(f, f.outbox[k]);
    }
    if Delivered(f, id) {
      assert DispatchSound(f, id);
      assert EventsOf(f, id) == {FindEvent(f.outbox, id).value};
    }
  }

  /**
   * After any run a dispatch is DELIVERED exactly when it has exactly one COMPLETED row, and exactly when
   * it has exactly one outbox event; otherwise it has none of either. All three carry one timestamp.
   */
  lemma DeliveredMeansOneRowAndOneEvent(ops: seq<Op>, id: nat)
    ensures var f := Run(START, ops);
            && |CompletedRows(f, id)| == |EventsOf(f, id)| == (if Delivered(f, id) then 1 else 0)
            && (forall i :: i in CompletedRows(f, id) ==>
                  id < |f.dispatches| && f.assignments[i].endedAt == f.dispatches[id].deliveredAt)
            && (forall k :: k in EventsOf(f, id) ==>
                  id < |f.dispatches| && Some(f.outbox[k].occurredAt) == f.dispatches[id].deliveredAt)
  {
    RunIsSound(START, ops);
    DeliveredHasOneRow(Run(START, ops), id);
    DeliveredHasOneEvent(Run(START, ops), id);
  }

  /** Completing again writes nothing, whoever asks and whenever; the holder is told it was already done. */
  lemma CompletingAgainWritesNothing(f: Tables, ops: seq<Op>, id: nat, actor: Holder, user: nat, again: Holder, other: nat)
    requires Sound(f) && CompleteStep(f, id, actor, user).1.Ok?
    ensures var later := Run(CompleteStep(f, id, actor, user).0, ops);
            var (after, r) := CompleteStep(later, id, again, other);
            after == later && (r == Ok(Unchanged) <==> again == actor)
  {
    var done := CompleteStep(f, id, actor, user).0;
    CompleteIsSound(f, id, actor, user);
    CompletedIsDelivered(f, id, actor, user);
    RunIsSound(done, ops);
    RunIsKept(done, ops);
    AlreadyDelivered(Run(done, ops), id, again, other);
  }

  lemma CompletedIsDelivered(f: Tables, id: nat, actor: Holder, user: nat)
    requires CompleteStep(f, id, actor, user).1.Ok?
    ensures var done := CompleteStep(f, id, actor, user).0;
            Delivered(done, id) && done.dispatches[id].holder == actor && !actor.Nobody?
  {}

  lemma AlreadyDelivered(f: Tables, id: nat, again: Holder, user: nat)
    requires Sound(f) && Delivered(f, id)
    ensures var (after, r) := CompleteStep(f, id, again, user);
            after == f && (r == Ok(Unchanged) <==> again == f.dispatches[id].holder)
  {
    assert DispatchSound(f, id);
  }

  /**
   * Once delivered, the public view reads DELIVERED at every later time and in every later state, also
   * after the request is cancelled, and it is word for word the payload the event froze.
   */
  lemma DeliveredForever(ops: seq<Op>, more: seq<Op>, id: nat, now: nat)
    ensures var f := Run(START, ops);
            var later := Run(START, ops + more);
            Delivered(f, id) ==>
              && Delivered(later, id) && later.dispatches[id] == f.dispatches[id]
              && f.dispatches[id].request < |later.requests|
              && FindEvent(f.outbox, id).Some?
              && var view := DeliveryStatusView(later, f.dispatches[id].request, now);
                 && view.status == P_DELIVERED && view.deliveredAt == f.dispatches[id].deliveredAt
                 && view == f.outbox[FindEvent(f.outbox, id).value].payload
  {
    RunUnfolds(START, ops, more);
    RunIsSound(START, ops);
    RunIsSound(Run(START, ops), more);
    RunIsKept(Run(START, ops), more);
    if Delivered(Run(START, ops), id) { DeliveredViews(Run(START, ops), Run(START, ops + more), id, now); }
  }

  lemma DeliveredViews(f: Tables, later: Tables, id: nat, now: nat)
    requires Sound(f) && Sound(later) && Kept(f, later) && Delivered(f, id)
    ensures f.dispatches[id].request < |later.requests| && FindEvent(f.outbox, id).Some?
    ensures DeliveryStatusView(later, f.dispatches[id].request, now) == f.outbox[FindEvent(f.outbox, id).value].payload
    ensures DeliveryStatusView(later, f.dispatches[id].request, now).status == P_DELIVERED
    ensures DeliveryStatusView(later, f.dispatches[id].request, now).deliveredAt == f.dispatches[id].deliveredAt
  {
    assert DispatchSound(f, id) && DispatchSound(later, id);
    OnlyDispatchOf(later, id);
    assert EventSound(f, f.outbox[FindEvent(f.outbox, id).value]);
  }

  /** A cancelled request never leaves a dispatch anyone could win or is executing. */
  lemma CancelledRequestsRest(ops: seq<Op>, id: nat, i: nat)
    ensures var f := Run(START, ops);
            id < |f.dispatches| && f.dispatches[id].request < |f.requests|
            && f.requests[f.dispatches[id].request].cancelledAt.Some? ==>
              && !Operational(f.dispatches[id].status)
              && (i < |f.assignments| && f.assignments[i].dispatch == id ==> !f.assignments[i].status.ACTIVE?)
  {
    RunIsSound(START, ops);
    var f := Run(START, ops);
    if id < |f.dispatches| { assert DispatchSound(f, id); }
    if i < |f.assignments| { assert RowSound(f.dispatches, f.assignments[i]); }
  }
}
