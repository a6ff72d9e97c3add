/**
 * The services that write the fleet's tables, each method against the step it must perform. They share
 * one database; a method holds the row locks of one transaction, so it runs alone on what it touches.
 */
module FleetServices {
  import opened Common
  import opened DispatchPolicy
  import opened Fleet

  class Database {
    var clock: nat
    var providers: map<nat, ProviderStatus>
    var drivers: map<nat, DriverRow>
    var vehicles: map<nat, VehicleRow>
    var requests: seq<Request>
    var dispatches: seq<Dispatch>
    var assignments: seq<Assignment>
    var pairings: seq<Pairing>
    var outbox: seq<OutboxEvent>

    function View(): Tables reads this {
      Tables(clock, providers, drivers, vehicles, requests, dispatches, assignments, pairings, outbox)
    }

    constructor ()
      ensures View() == START
    {
      clock, providers, drivers, vehicles := 0, map[], map[], map[];
      requests, dispatches, assignments, pairings, outbox := [], [], [], [], [];
    }
  }

  /** The active rows of these dispatches, in table order. */
  function ActiveRows(rows: seq<Assignment>, ids: set<nat>): (r: seq<nat>)
    ensures forall i :: 0 <= i < |r| ==> r[i] < |rows| && rows[r[i]].status.ACTIVE? && rows[r[i]].dispatch in ids
    ensures forall k :: 0 <= k < |rows| && rows[k].status.ACTIVE? && rows[k].dispatch in ids ==> k in r
    ensures forall i, j :: 0 <= i < j < |r| ==> r[i] < r[j]
  {
    if rows == [] then []
    else
      var n := |rows| - 1;
      var earlier := ActiveRows(rows[..n], ids);
      if rows[n].status.ACTIVE? && rows[n].dispatch in ids then earlier + [n] else earlier
  }

  /** The first n of these rows have ended; every other row is as it was. */
  ghost predicate Ended(was: seq<Assignment>, rows: seq<Assignment>, active: seq<nat>, n: nat, now: nat)
    requires n <= |active| && forall j :: 0 <= j < |active| ==> active[j] < |was|
  {
    && |rows| == |was|
    && (forall j :: 0 <= j < n ==> rows[active[j]] == Close(was[active[j]], ENDED, now, Some(DELIVERY_CANCELLED)))
    && (forall k :: 0 <= k < |was| && k !in active[..n] ==> rows[k] == was[k])
  }

  lemma EndOneMore(was: seq<Assignment>, rows: seq<Assignment>, active: seq<nat>, n: nat, now: nat)
    requires n < |active| && (forall j :: 0 <= j < |active| ==> active[j] < |was|)
    requires forall i, j :: 0 <= i < j < |active| ==> active[i] < active[j]
    requires Ended(was, rows, active, n, now)
    ensures var k := active[n];
            Ended(was, rows[k := Close(rows[k], ENDED, now, Some(DELIVERY_CANCELLED))], active, n + 1, now)
  {
    assert active[n] !in active[..n];
    assert active[..n + 1] == active[..n] + [active[n]];
  }

  lemma EndedOneByOne(was: seq<Assignment>, rows: seq<Assignment>, ids: set<nat>, now: nat)
    requires Ended(was, rows, ActiveRows(was, ids), |ActiveRows(was, ids)|, now)
    ensures rows == CancelActive(was, ids, now)
  {
    var active := ActiveRows(was, ids);
    assert active[..|active|] == active;
    forall k | 0 <= k < |was|
      ensures rows[k] == if k in active then Close(was[k], ENDED, now, Some(DELIVERY_CANCELLED)) else was[k]
    {
      if k in active { var j :| 0 <= j < |active| && active[j] == k; }
    }
  }

  /** Official cancellation: the active rows of the dispatches being cancelled end one by one. */
  method CancelActiveAssignments(db: Database, ids: set<nat>, now: nat) returns (active: seq<nat>)
    modifies db`assignments
    ensures db.assignments == CancelActive(old(db.assignments), ids, now)
    ensures active == ActiveRows(old(db.assignments), ids)
  {
    ghost var was := db.assignments;
    active := ActiveRows(db.assignments, ids);
    for i := 0 to |active|
      invariant Ended(was, db.assignments, active, i, now)
    {
      EndOneMore(was, db.assignments, active, i, now);
      var row := db.assignments[active[i]];
      db.assignments := db.assignments[active[i] := Close(row, ENDED, now, Some(DELIVERY_CANCELLED))];
    }
    EndedOneByOne(was, db.assignments, ids, now);
  }

  /** Driver and vehicle are the provider's own, and all three are operational. */
  predicate Employed(f: Tables, provider: nat, driver: nat, vehicle: nat) {
    && provider in f.providers && f.providers[provider].PROVIDER_ACTIVE?
    && driver in f.drivers && f.drivers[driver].provider == Some(provider)
    && f.drivers[driver].status.DRIVER_ACTIVE? && f.drivers[driver].userActive
    && vehicle in f.vehicles && f.vehicles[vehicle] == VehicleRow(Provider(provider), VEHICLE_ACTIVE)
  }

  class DeliveryAssignmentsService {
    const db: Database

    constructor (db: Database)
      ensures this.db == db
    {
      this.db := db;
    }

    method LockOwnedDispatch(id: nat, provider: nat) returns (r: Option<Error>)
      ensures r == OwnedDispatch(db.View(), id, provider)
    {
      if id >= |db.dispatches| || provider !in db.dispatches[id].candidates { return Some(NOT_FOUND); }
      var row := db.dispatches[id];
      if !row.status.CLAIMED? || row.holder != Provider(provider) { return Some(DISPATCH_NOT_CLAIMED_BY_PROVIDER); }
      return None;
    }

    method LockEligibleResources(provider: nat, driver: nat, vehicle: nat, replacing: Option<nat>) returns (r: Option<Error>)
      ensures r == Ineligible(db.View(), provider, driver, vehicle, replacing)
      ensures r.None? <==>
                && Employed(db.View(), provider, driver, vehicle)
                && (forall i :: 0 <= i < |db.assignments| && db.assignments[i].status.ACTIVE? && Some(i) != replacing ==>
                      db.assignments[i].driver != driver && db.assignments[i].vehicle != vehicle)
                && (forall i :: 0 <= i < |db.pairings| && db.pairings[i].unassignedAt.None? ==>
                      (db.pairings[i].driver == driver <==> db.pairings[i].vehicle == vehicle))
    {
      if provider !in db.providers { return Some(NOT_FOUND); }
      if driver !in db.drivers || db.drivers[driver].provider != Some(provider) { return Some(NOT_FOUND); }
      if vehicle !in db.vehicles || db.vehicles[vehicle].owner != Provider(provider) { return Some(NOT_FOUND); }
      if !db.providers[provider].PROVIDER_ACTIVE? { return Some(PROVIDER_NOT_ACTIVE); }
      if !db.drivers[driver].status.DRIVER_ACTIVE? || !db.drivers[driver].userActive { return Some(DRIVER_NOT_ELIGIBLE); }
      if !db.vehicles[vehicle].status.VEHICLE_ACTIVE? { return Some(VEHICLE_NOT_ELIGIBLE); }
      if DriverBusy(db.assignments, driver, replacing) { return Some(DRIVER_BUSY); }
      if VehicleBusy(db.assignments, vehicle, replacing) { return Some(VEHICLE_BUSY); }
      if PairingConflict(db.pairings, driver, vehicle) { return Some(DRIVER_VEHICLE_MISMATCH); }
      return None;
    }

    method Create(id: nat, driver: nat, vehicle: nat, provider: nat, documents: bool) returns (r: Outcome)
      modifies db`assignments
      ensures (db.View(), r) == CreateStep(old(db.View()), id, driver, vehicle, provider, documents)
    {
      var refused := LockOwnedDispatch(id, provider);
      if refused.Some? { return Err(refused.value); }
      if FindRow(db.assignments, id, ACTIVE).Some? { return Err(DISPATCH_ALREADY_ASSIGNED); }
      var ineligible := LockEligibleResources(provider, driver, vehicle, None);
      if ineligible.Some? { return Err(ineligible.value); }
      if !documents { return Err(DOCUMENTS_REFUSED); }
      db.assignments := db.assignments + [Fresh(id, Provider(provider), driver, vehicle, db.clock)];
      return Ok(Done);
    }

    method Reassign(id: nat, driver: nat, vehicle: nat, provider: nat, reason: EndReason, documents: bool) returns (r: Outcome)
      modifies db`assignments
      ensures (db.View(), r) == ReassignStep(old(db.View()), id, driver, vehicle, provider, reason, documents)
    {
      var refused := LockOwnedDispatch(id, provider);
      if refused.Some? { return Err(refused.value); }
      var previous := FindRow(db.assignments, id, ACTIVE);
      if previous.None? { return Err(NO_ACTIVE_ASSIGNMENT); }
      var row := db.assignments[previous.value];
      if row.driver == driver && row.vehicle == vehicle { return Err(ASSIGNMENT_UNCHANGED); }
      var ineligible := LockEligibleResources(provider, driver, vehicle, previous);
      if ineligible.Some? { return Err(ineligible.value); }
      if !documents { return Err(DOCUMENTS_REFUSED); }
      db.assignments := db.assignments[previous.value := Close(row, REASSIGNED, db.clock, Some(reason))];
      db.assignments := db.assignments + [Fresh(id, Provider(provider), driver, vehicle, db.clock)];
      return Ok(Done);
    }

    method Cancel(id: nat, provider: nat, reason: EndReason) returns (r: Outcome)
      modifies db`assignments
      ensures (db.View(), r) == EndStep(old(db.View()), id, provider, reason)
    {
      var refused := LockOwnedDispatch(id, provider);
      if refused.Some? { return Err(refused.value); }
      var active := FindRow(db.assignments, id, ACTIVE);
      if active.None? { return Err(NO_ACTIVE_ASSIGNMENT); }
      db.assignments := db.assignments[active.value := Close(db.assignments[active.value], ENDED, db.clock, Some(reason))];
      return Ok(Done);
    }
  }

  class AssignmentsService {
    const db: Database

    constructor (db: Database)
      ensures this.db == db
    {
      this.db := db;
    }

    /** The driver's, or the given vehicle's, delivery must end before the pairing may change. */
    method AssertNoDeliveryAssignment(driver: nat, vehicle: Option<nat>) returns (free: bool)
      ensures free <==> forall i :: 0 <= i < |db.assignments| && db.assignments[i].status.ACTIVE? ==>
                db.assignments[i].driver != driver && Some(db.assignments[i].vehicle) != vehicle
      ensures free <==> !DriverBusy(db.assignments, driver, None)
                        && (vehicle.Some? ==> !VehicleBusy(db.assignments, vehicle.value, None))
    {
      for i := 0 to |db.assignments|
        invariant forall k :: 0 <= k < i && db.assignments[k].status.ACTIVE? ==>
                    db.assignments[k].driver != driver && Some(db.assignments[k].vehicle) != vehicle
      {
        var row := db.assignments[i];
        if row.status.ACTIVE? && (row.driver == driver || Some(row.vehicle) == vehicle) { return false; }
      }
      return true;
    }

    method Assign(provider: nat, driver: nat, vehicle: nat, documents: bool) returns (r: Outcome)
      modifies db`pairings
      ensures (db.View(), r) == AssignStep(old(db.View()), provider, driver, vehicle, documents)
    {
      if provider !in db.providers { return Err(NOT_FOUND); }
      if driver !in db.drivers || db.drivers[driver].provider != Some(provider) { return Err(NOT_FOUND); }
      if vehicle !in db.vehicles || db.vehicles[vehicle].owner != Provider(provider) { return Err(NOT_FOUND); }
      if db.providers[provider].PROVIDER_SUSPENDED? { return Err(PROVIDER_NOT_ACTIVE); }
      if db.drivers[driver].status.DRIVER_SUSPENDED? { return Err(DRIVER_NOT_ELIGIBLE); }
      if !db.vehicles[vehicle].status.VEHICLE_ACTIVE? { return Err(VEHICLE_NOT_ELIGIBLE); }
      // One pass over the open pairings of either: the driver's conflict is reported before the vehicle's.
      var vehiclePaired := false;
      for i := 0 to |db.pairings|
        invariant forall k :: 0 <= k < i && db.pairings[k].unassignedAt.None? ==> db.pairings[k].driver != driver
        invariant vehiclePaired <==> exists k :: 0 <= k < i && db.pairings[k].unassignedAt.None? && db.pairings[k].vehicle == vehicle
      {
        if db.pairings[i].unassignedAt.None? {
          if db.pairings[i].driver == driver { return Err(PAIRING_CONFLICT("driver")); }
          if db.pairings[i].vehicle == vehicle { vehiclePaired := true; }
        }
      }
      if vehiclePaired { return Err(PAIRING_CONFLICT("vehicle")); }
      var free := AssertNoDeliveryAssignment(driver, Some(vehicle));
      if !free { return Err(PAIRING_CONFLICT("delivering")); }
      if !documents { return Err(DOCUMENTS_REFUSED); }
      db.pairings := db.pairings + [Pairing(provider, driver, vehicle, db.clock, None)];
      return Ok(Done);
    }

    method Unassign(provider: nat, driver: nat) returns (r: Outcome)
      modifies db`pairings
      ensures (db.View(), r) == UnassignStep(old(db.View()), provider, driver)
    {
      if driver !in db.drivers || db.drivers[driver].provider != Some(provider) { return Err(NOT_FOUND); }
      var open := OpenPairing(db.pairings, driver);
      if open.None? { return Err(NOT_FOUND); }
      var free := AssertNoDeliveryAssignment(driver, None);
      if !free { return Err(PAIRING_CONFLICT("delivering")); }
      var p := db.pairings[open.value];
      db.pairings := db.pairings[open.value := p.(unassignedAt := Some(if db.clock < p.assignedAt then p.assignedAt else db.clock))];
      return Ok(Done);
    }
  }

  /** The event is built from the rows this transaction has already written. */
  method RecordDeliveryCompleted(db: Database, id: nat, request: nat, occurredAt: nat) returns (event: OutboxEvent)
    requires request < |db.requests|
    modifies db`outbox
    ensures event == OutboxEvent(db.requests[request].client, request, id, occurredAt,
                                 DeliveryStatusView(old(db.View()), request, occurredAt))
    ensures db.outbox == old(db.outbox) + [event]
    // Of a dispatch just delivered, what is frozen is what the public view will answer at any time.
    ensures id < |db.dispatches| && db.dispatches[id].status.DELIVERED? && db.dispatches[id].deliveredAt == Some(occurredAt)
            && NewestDispatch(db.dispatches, request) == Some(id) ==>
              && event.payload.status == P_DELIVERED && event.payload.deliveredAt == Some(event.occurredAt)
              && event.payload.cancelledAt == None
              && forall now :: DeliveryStatusView(db.View(), request, now) == event.payload
  {
    event := OutboxEvent(db.requests[request].client, request, id, occurredAt,
                         DeliveryStatusView(db.View(), request, occurredAt));
    db.outbox := db.outbox + [event];
  }

  /** Three writes in order: the assignment ends, the dispatch is delivered, the event is recorded. */
  method CompleteDelivery(db: Database, id: nat, actor: Holder, user: nat) returns (r: Outcome)
    modifies db`assignments, db`dispatches, db`outbox
    ensures (db.View(), r) == CompleteStep(old(db.View()), id, actor, user)
  {
    if id >= |db.dispatches| || db.dispatches[id].request >= |db.requests| { return Err(NOT_FOUND); }
    var dispatch := db.dispatches[id];
    if actor.Nobody? || dispatch.holder != actor { return Err(NotOwner(actor)); }
    if dispatch.status.DELIVERED? { return Ok(Unchanged); }
    if !dispatch.status.CLAIMED? { return Err(NotOwner(actor)); }
    var active := FindRow(db.assignments, id, ACTIVE);
    if active.None? { return Err(NO_ACTIVE_ASSIGNMENT); }
    var deliveredAt := db.clock;
    db.assignments := db.assignments[active.value := Close(db.assignments[active.value], COMPLETED, deliveredAt, None)];
    db.dispatches := db.dispatches[id := dispatch.(status := DELIVERED, deliveredAt := Some(deliveredAt), deliveredBy := Some(user))];
    var event := RecordDeliveryCompleted(db, id, dispatch.request, deliveredAt);
    return Ok(Done);
  }
}
