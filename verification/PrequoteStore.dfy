/**
 * The durable execution of a prequote request: one record per (client, key), at most one execution
 * attached to it, a lease fenced by owner and version, a bounded number of attempts, and one offer
 * published when an attempt succeeds.
 *
 * Each operation is one transaction holding the row locks of its record and execution, so one atomic
 * step. Crashes are steps that never come. Only equal requests have fingerprints of the same text, so a
 * request stands for its hash; fresh UUIDs come from a counter.
 */
module PrequoteStore {
  import opened Common
  import PrequoteConditions

  type Client = nat
  type Conditions = PrequoteConditions.Conditions

  const PREQUOTE_OPERATION := "delivery_prequotes.create"
  const PREQUOTE_RESOURCE := "DeliveryPrequote"

  datatype Payload = PrequotePayload(conditions: Conditions) | OtherPayload(body: nat)

  /** A record is the only one of its (client, key), so the pair stands for its identifier. */
  datatype RecordId = RecordId(client: Client, key: string)

  datatype Record = Record(operation: string, resourceType: string, request: Payload, resourceId: nat)

  datatype ExecutionState = PROCESSING | SUCCEEDED | RETRYABLE_FAILED | FAILED

  datatype Execution = Execution(
    state: ExecutionState, owner: nat, version: nat, attempts: nat, maxAttempts: nat,
    leaseExpiresAt: nat, errorCode: Option<string>)

  /** What the pricing configuration and the route made of the request. */
  datatype Offer = Offer(
    zoneId: nat, ratePlanId: nat, rateBandId: nat, amount: int, currency: string,
    distanceMeters: int, durationSeconds: int, routingProvider: string, routeCalculatedAt: nat)

  datatype Prequote = Prequote(
    recordId: RecordId, client: Client, conditions: Conditions, offer: Offer, issuedAt: nat, expiresAt: nat)

  datatype Lease = Lease(recordId: RecordId, client: Client, owner: nat, version: nat)
  datatype LeasePolicy = LeasePolicy(leaseMs: int, maxAttempts: int)

  datatype Error =
    | IDEMPOTENCY_CONFLICT | PREQUOTE_POLICY_INVALID | PREQUOTE_LEASE_LOST | PREQUOTE_ERROR_CODE_INVALID
    | PREQUOTE_LEASE_BUDGET_INSUFFICIENT | PREQUOTE_DURATION_INVALID | PREQUOTE_CONFIGURATION_CHANGED
    | PRICING_REFUSED(code: string) | STORAGE_CONFLICT | PREQUOTE_MISSING

  datatype Answer =
    | Available
    | Succeeded(prequote: Prequote)
    | Failed(code: string)
    | InProgress(retryAt: nat)
    | Acquired(lease: Lease, resourceId: nat)

  datatype Store = Store(
    records: map<RecordId, Record>, executions: map<RecordId, Execution>,
    prequotes: map<nat, Prequote>, nextUuid: nat)

  const EMPTY := Store(map[], map[], map[], 0)

  predicate KeyOk(key: string) {
    8 <= |key| <= 255 && forall i :: 0 <= i < |key| ==> '!' <= key[i] <= '~'
  }

  predicate ErrorCodeOk(code: string) {
    && 1 <= |code| <= 64
    && 'A' <= code[0] <= 'Z'
    && forall i :: 0 <= i < |code| ==> 'A' <= code[i] <= 'Z' || '0' <= code[i] <= '9' || code[i] == '_'
  }

  predicate PolicyOk(p: LeasePolicy) { 1 <= p.leaseMs <= 300000 && 1 <= p.maxAttempts <= 5 }

  predicate SameRequest(r: Record, conditions: Conditions) {
    r.operation == PREQUOTE_OPERATION && r.resourceType == PREQUOTE_RESOURCE && r.request == PrequotePayload(conditions)
  }

  // ---------------------------------------------------------------- the operations as steps

  function PublishedOffer(s: Store, resourceId: nat): Result<Answer, Error> {
    if resourceId in s.prequotes then Ok(Succeeded(s.prequotes[resourceId])) else Err(PREQUOTE_MISSING)
  }

  /** Reads only: what a reservation would find. */
  function InspectStep(s: Store, client: Client, key: string, conditions: Conditions, now: nat): Result<Answer, Error> {
    var id := RecordId(client, key);
    if id !in s.records then Ok(Available)
    else
      var record := s.records[id];
      if !SameRequest(record, conditions) || id !in s.executions then Err(IDEMPOTENCY_CONFLICT)
      else
        var x := s.executions[id];
        if x.state.SUCCEEDED? then PublishedOffer(s, record.resourceId)
        else if x.state.FAILED? then Ok(Failed(if x.errorCode.Some? then x.errorCode.value else ""))
        else if x.state.PROCESSING? && x.leaseExpiresAt > now then Ok(InProgress(x.leaseExpiresAt))
        else if x.attempts >= x.maxAttempts then Ok(Failed("ATTEMPTS_EXHAUSTED"))
        else Ok(Available)
  }

  function FirstAttempt(s: Store, client: Client, key: string, conditions: Conditions, p: LeasePolicy, now: nat)
    : (Store, Result<Answer, Error>)
    requires PolicyOk(p)
  {
    var id, resourceId, owner := RecordId(client, key), s.nextUuid, s.nextUuid + 1;
    (Store(
       s.records[id := Record(PREQUOTE_OPERATION, PREQUOTE_RESOURCE, PrequotePayload(conditions), resourceId)],
       s.executions[id := Execution(PROCESSING, owner, 1, 1, p.maxAttempts, now + p.leaseMs, None)],
       s.prequotes, s.nextUuid + 2),
     Ok(Acquired(Lease(id, client, owner, 1), resourceId)))
  }

  function TakeOver(x: Execution, owner: nat, p: LeasePolicy, now: nat): Execution
    requires PolicyOk(p)
  {
    x.(state := PROCESSING, owner := owner, version := x.version + 1, attempts := x.attempts + 1,
       leaseExpiresAt := now + p.leaseMs, errorCode := None)
  }

  function ReserveStep(s: Store, client: Client, key: string, conditions: Conditions, p: LeasePolicy, now: nat)
    : (Store, Result<Answer, Error>)
  {
    var id := RecordId(client, key);
    if !KeyOk(key) || !PolicyOk(p) then (s, Err(PREQUOTE_POLICY_INVALID))
    else if id !in s.records then FirstAttempt(s, client, key, conditions, p, now)
    else
      var record := s.records[id];
      if !SameRequest(record, conditions) then (s, Err(IDEMPOTENCY_CONFLICT))
      else if id !in s.executions then (s, Err(IDEMPOTENCY_CONFLICT))
      else
        var x := s.executions[id];
        if x.state.SUCCEEDED? then (s, PublishedOffer(s, record.resourceId))
        else if x.state.FAILED? then (s, Ok(Failed(if x.errorCode.Some? then x.errorCode.value else "")))
        else if x.state.PROCESSING? && x.leaseExpiresAt > now then (s, Ok(InProgress(x.leaseExpiresAt)))
        else if x.attempts >= x.maxAttempts then
          (s.(executions := s.executions[id := x.(state := FAILED, errorCode := Some("ATTEMPTS_EXHAUSTED"))]),
           Ok(Failed("ATTEMPTS_EXHAUSTED")))
        else
          (s.(executions := s.executions[id := TakeOver(x, s.nextUuid, p, now)], nextUuid := s.nextUuid + 1),
           Ok(Acquired(Lease(id, client, s.nextUuid, x.version + 1), record.resourceId)))
  }

  /** The fence: the record is the client's, the execution is this lease's and it has not expired. */
  predicate Owned(s: Store, lease: Lease, now: nat) {
    && lease.recordId in s.records && lease.recordId.client == lease.client
    && lease.recordId in s.executions
    && var x := s.executions[lease.recordId];
       x.state.PROCESSING? && x.owner == lease.owner && x.version == lease.version && now < x.leaseExpiresAt
  }

  function BudgetStep(s: Store, lease: Lease, remainingMs: int, now: nat): Result<(), Error> {
    if !Owned(s, lease, now) then Err(PREQUOTE_LEASE_LOST)
    else if s.executions[lease.recordId].leaseExpiresAt - now < remainingMs then Err(PREQUOTE_LEASE_BUDGET_INSUFFICIENT)
    else Ok(())
  }

  function FailStep(s: Store, lease: Lease, code: string, retryable: bool, now: nat): (Store, Result<ExecutionState, Error>) {
    if !ErrorCodeOk(code) then (s, Err(PREQUOTE_ERROR_CODE_INVALID))
    else if !Owned(s, lease, now) then (s, Err(PREQUOTE_LEASE_LOST))
    else
      var x := s.executions[lease.recordId];
      var state := if retryable && x.attempts < x.maxAttempts then RETRYABLE_FAILED else FAILED;
      (s.(executions := s.executions[lease.recordId := x.(state := state, errorCode := Some(code))]), Ok(state))
  }

  datatype Route = Route(distanceMeters: int, durationSeconds: int, routingProvider: string, calculatedAt: nat)

  /** What was priced: zone, plan and route. */
  datatype Evidence = Evidence(zoneId: nat, ratePlanId: nat, route: Route)

  /** The configuration as it stands now, if there is a usable one, and what it makes of the route. */
  datatype Pricing =
    | Unprepared(code: string)
    | Prepared(zoneId: nat, ratePlanId: nat, currency: string, price: Result<Price, string>)

  datatype Price = Price(rateBandId: nat, amount: int, currency: string)

  predicate SameConfiguration(evidence: Evidence, pricing: Pricing)
    requires pricing.Prepared?
  {
    pricing.zoneId == evidence.zoneId && pricing.ratePlanId == evidence.ratePlanId && pricing.currency == "MXN"
  }

  function OfferOf(evidence: Evidence, price: Price): Offer {
    var r := evidence.route;
    Offer(evidence.zoneId, evidence.ratePlanId, price.rateBandId, price.amount, price.currency,
          r.distanceMeters, r.durationSeconds, r.routingProvider, r.calculatedAt)
  }

  /**
   * Publication re-reads the clock three times under its locks: on entry, once the configuration is
   * locked and priced, and after inserting the offer.
   */
  function PublishStep(s: Store, lease: Lease, conditions: Conditions, evidence: Evidence, pricing: Pricing,
                       validityMs: int, now: nat, priced: nat, stored: nat): (Store, Result<Prequote, Error>)
  {
    if !(1 <= validityMs <= 86400000) then (s, Err(PREQUOTE_DURATION_INVALID))
    else if !Owned(s, lease, now) then (s, Err(PREQUOTE_LEASE_LOST))
    else
      var record := s.records[lease.recordId];
      if record.request != PrequotePayload(conditions) then (s, Err(IDEMPOTENCY_CONFLICT))
      else if pricing.Unprepared? then (s, Err(PRICING_REFUSED(pricing.code)))
      else if !SameConfiguration(evidence, pricing) then (s, Err(PREQUOTE_CONFIGURATION_CHANGED))
      else if pricing.price.Err? then (s, Err(PRICING_REFUSED(pricing.price.error)))
      else if !Owned(s, lease, priced) then (s, Err(PREQUOTE_LEASE_LOST))
      else if record.resourceId in s.prequotes then (s, Err(STORAGE_CONFLICT))
      else if !Owned(s, lease, stored) then (s, Err(PREQUOTE_LEASE_LOST))
      else
        var offer := OfferOf(evidence, pricing.price.value);
        var quote := Prequote(lease.recordId, lease.client, conditions, offer, priced, priced + validityMs);
        var x := s.executions[lease.recordId];
        (s.(prequotes := s.prequotes[record.resourceId := quote],
            executions := s.executions[lease.recordId := x.(state := SUCCEEDED, errorCode := None)]),
         Ok(quote))
  }

  /** The other users of the key table: a record written together with its own resource, no execution. */
  function ForeignStep(s: Store, client: Client, key: string, operation: string, resourceType: string, body: nat): Store {
    if RecordId(client, key) in s.records then s
    else s.(records := s.records[RecordId(client, key) :=
              Record(operation, resourceType, OtherPayload(body), s.nextUuid)],
            nextUuid := s.nextUuid + 1)
  }

  datatype Op =
    | ReserveOp(client: Client, key: string, conditions: Conditions, policy: LeasePolicy, now: nat)
    | FailOp(lease: Lease, code: string, retryable: bool, now: nat)
    | PublishOp(lease: Lease, conditions: Conditions, evidence: Evidence, pricing: Pricing, validityMs: int,
                now: nat, priced: nat, stored: nat)
    | ForeignOp(client: Client, key: string, operation: string, resourceType: string, body: nat)

  function Apply(s: Store, op: Op): Store {
    match op
    case ReserveOp(client, key, conditions, policy, now) => ReserveStep(s, client, key, conditions, policy, now).0
    case FailOp(lease, code, retryable, now) => FailStep(s, lease, code, retryable, now).0
    case PublishOp(lease, conditions, evidence, pricing, validityMs, now, priced, stored) =>
      PublishStep(s, lease, conditions, evidence, pricing, validityMs, now, priced, stored).0
    case ForeignOp(client, key, operation, resourceType, body) => ForeignStep(s, client, key, operation, resourceType, body)
  }

  function Run(s: Store, ops: seq<Op>): Store
    decreases |ops|
  {
    if ops == [] then s else Run(Apply(s, ops[0]), ops[1..])
  }

  // ---------------------------------------------------------------- the invariant of every run

  ghost predicate IdsFresh(s: Store) {
    && (forall id :: id in s.records ==> s.records[id].resourceId < s.nextUuid)
    && (forall a, b :: a in s.records && b in s.records && a != b ==> s.records[a].resourceId != s.records[b].resourceId)
    && (forall id :: id in s.executions ==> s.executions[id].owner < s.nextUuid)
  }

  ghost predicate ExecutionSound(x: Execution) { 1 <= x.version == x.attempts <= x.maxAttempts <= 5 }

  /** A record has an offer exactly when its execution succeeded, and every offer has such a record. */
  ghost predicate OffersSound(s: Store) {
    && (forall id :: id in s.executions ==>
          && id in s.records
          && ExecutionSound(s.executions[id])
          && (s.executions[id].state.SUCCEEDED? <==> s.records[id].resourceId in s.prequotes))
    && (forall r :: r in s.prequotes ==>
          var q := s.prequotes[r];
          && q.recordId in s.executions && q.recordId in s.records
          && s.records[q.recordId].resourceId == r
          && q.recordId.client == q.client
          && s.records[q.recordId].request == PrequotePayload(q.conditions))
  }

  /** Only a prequote request stands for a prequote's fingerprint: the operation is part of it. */
  predicate RecordSound(r: Record) {
    r.request.PrequotePayload? ==> r.operation == PREQUOTE_OPERATION && r.resourceType == PREQUOTE_RESOURCE
  }

  ghost predicate Sound(s: Store) {
    IdsFresh(s) && OffersSound(s) && forall id :: id in s.records ==> RecordSound(s.records[id])
  }

  /** Adding a record under a new key, with a fresh resource, keeps the store sound. */
  lemma NewRecordIsSound(s: Store, id: RecordId, r: Record, nextUuid: nat)
    requires Sound(s) && id !in s.records
    requires r.resourceId == s.nextUuid < nextUuid && RecordSound(r)
    ensures Sound(s.(records := s.records[id := r], nextUuid := nextUuid))
  {}

  /** Writing an execution that has not succeeded, over one that had not, keeps the offers sound. */
  lemma WriteExecutionIsSound(s: Store, id: RecordId, x: Execution, nextUuid: nat)
    requires Sound(s) && id in s.records && s.nextUuid <= nextUuid
    requires id in s.executions ==> !s.executions[id].state.SUCCEEDED?
    requires id !in s.executions ==> s.records[id].resourceId !in s.prequotes
    requires ExecutionSound(x) && !x.state.SUCCEEDED? && x.owner < nextUuid
    ensures Sound(s.(executions := s.executions[id := x], nextUuid := nextUuid))
  {}

  lemma ReserveIsSound(s: Store, client: Client, key: string, conditions: Conditions, p: LeasePolicy, now: nat)
    requires Sound(s)
    ensures Sound(ReserveStep(s, client, key, conditions, p, now).0)
  {
    var after := ReserveStep(s, client, key, conditions, p, now).0;
    if KeyOk(key) && PolicyOk(p) {
      var id := RecordId(client, key);
      if id !in s.records {
        var record := Record(PREQUOTE_OPERATION, PREQUOTE_RESOURCE, PrequotePayload(conditions), s.nextUuid);
        NewRecordIsSound(s, id, record, s.nextUuid + 2);
        NoOfferYet(s, s.nextUuid);
        WriteExecutionIsSound(s.(records := s.records[id := record], nextUuid := s.nextUuid + 2), id,
                              after.executions[id], s.nextUuid + 2);
      } else if after != s {
        WriteExecutionIsSound(s, id, after.executions[id], after.nextUuid);
      }
    }
  }

  lemma NoOfferYet(s: Store, r: nat)
    requires Sound(s) && s.nextUuid <= r
    ensures r !in s.prequotes
  {}

  lemma PublishIsSound(s: Store, id: RecordId, quote: Prequote)
    requires Sound(s) && id in s.executions && s.records[id].resourceId !in s.prequotes
    requires quote.recordId == id && quote.client == id.client
    requires s.records[id].request == PrequotePayload(quote.conditions)
    ensures Sound(s.(prequotes := s.prequotes[s.records[id].resourceId := quote],
                     executions := s.executions[id := s.executions[id].(state := SUCCEEDED, errorCode := None)]))
  {
    var after := s.(prequotes := s.prequotes[s.records[id].resourceId := quote],
                    executions := s.executions[id := s.executions[id].(state := SUCCEEDED, errorCode := None)]);
    forall other | other in after.executions
      ensures after.executions[other].state.SUCCEEDED? <==> s.records[other].resourceId in after.prequotes
    {
      if other != id { assert s.records[other].resourceId != s.records[id].resourceId; }
    }
  }

  lemma StepIsSound(s: Store, op: Op)
    requires Sound(s)
    ensures Sound(Apply(s, op))
  {
    match op
    case ReserveOp(client, key, conditions, policy, now) => ReserveIsSound(s, client, key, conditions, policy, now);
    case FailOp(lease, code, retryable, now) => FailIsSound(s, lease, code, retryable, now);
    case PublishOp(_, _, _, _, _, _, _, _) => PublishOpIsSound(s, op);
    case ForeignOp(client, key, operation, resourceType, body) =>
      ForeignIsSound(s, client, key, operation, resourceType, body);
  }

  lemma ForeignIsSound(s: Store, client: Client, key: string, operation: string, resourceType: string, body: nat)
    requires Sound(s)
    ensures Sound(ForeignStep(s, client, key, operation, resourceType, body))
  {
    if RecordId(client, key) !in s.records {
      NewRecordIsSound(s, RecordId(client, key), Record(operation, resourceType, OtherPayload(body), s.nextUuid), s.nextUuid + 1);
    }
  }

  lemma FailIsSound(s: Store, lease: Lease, code: string, retryable: bool, now: nat)
    requires Sound(s)
    ensures Sound(FailStep(s, lease, code, retryable, now).0)
  {
    var after := FailStep(s, lease, code, retryable, now).0;
    if after != s { WriteExecutionIsSound(s, lease.recordId, after.executions[lease.recordId], s.nextUuid); }
  }

  lemma PublishOpIsSound(s: Store, op: Op)
    requires Sound(s) && op.PublishOp?
    ensures Sound(Apply(s, op))
  {
    if Apply(s, op) != s {
      var offer := OfferOf(op.evidence, op.pricing.price.value);
      PublishIsSound(s, op.lease.recordId,
                     Prequote(op.lease.recordId, op.lease.client, op.conditions, offer, op.priced, op.priced + op.validityMs));
    }
  }

  lemma {:induction false} RunIsSound(s: Store, ops: seq<Op>)
    requires Sound(s)
    ensures Sound(Run(s, ops))
    decreases |ops|
  {
    if ops != [] {
      StepIsSound(s, ops[0]);
      RunIsSound(Apply(s, ops[0]), ops[1..]);
    }
  }

  /**
   * After any interleaving, every (client, key) has at most one offer, and has one exactly when its
   * execution is SUCCEEDED; the attempts never exceed the stored bound.
   */
  lemma OneOfferPerKey(ops: seq<Op>, id: RecordId)
    ensures var s := Run(EMPTY, ops);
            var mine := set r | r in s.prequotes && s.prequotes[r].recordId == id;
            && |mine| <= 1
            && (|mine| == 1 <==> id in s.executions && s.executions[id].state.SUCCEEDED?)
            && (id in s.executions ==> s.executions[id].attempts <= s.executions[id].maxAttempts <= 5)
  {
    RunIsSound(EMPTY, ops);
    var s := Run(EMPTY, ops);
    var mine := set r | r in s.prequotes && s.prequotes[r].recordId == id;
    if id in s.executions && s.executions[id].state.SUCCEEDED? {
      assert mine == {s.records[id].resourceId};
    } else {
      assert mine == {};
    }
  }

  // ---------------------------------------------------------------- fencing

  ghost predicate Terminal(s: Store, id: RecordId) {
    id in s.executions && (s.executions[id].state.SUCCEEDED? || s.executions[id].state.FAILED?)
  }

  /** What a step may do to one record: keep it, never lower its version, never touch what is final. */
  ghost predicate MovedForward(s: Store, after: Store, id: RecordId)
    requires id in s.executions && id in s.records
  {
    && id in after.executions && id in after.records && after.records[id] == s.records[id]
    && s.executions[id].version <= after.executions[id].version
    && (Terminal(s, id) ==> after.executions[id] == s.executions[id])
    && var r := s.records[id].resourceId;
       r in s.prequotes ==> r in after.prequotes && after.prequotes[r] == s.prequotes[r]
  }

  lemma PublishMovesForward(s: Store, op: Op, id: RecordId)
    requires Sound(s) && id in s.executions && op.PublishOp?
    ensures MovedForward(s, Apply(s, op), id)
  {
    var target := op.lease.recordId;
    if target in s.records && target != id {
      assert s.records[target].resourceId != s.records[id].resourceId;
    }
  }

  lemma ReserveMovesForward(s: Store, op: Op, id: RecordId)
    requires Sound(s) && id in s.executions && op.ReserveOp?
    ensures MovedForward(s, Apply(s, op), id)
  {
    assert id in s.records;
  }

  lemma StepMovesForward(s: Store, op: Op, id: RecordId)
    requires Sound(s) && id in s.executions
    ensures MovedForward(s, Apply(s, op), id)
  {
    match op
    case PublishOp(_, _, _, _, _, _, _, _) => PublishMovesForward(s, op, id);
    case ReserveOp(_, _, _, _, _) => ReserveMovesForward(s, op, id);
    case FailOp(_, _, _, _) =>
    case ForeignOp(_, _, _, _, _) =>
  }

  /** Versions only grow; a terminal execution and its offer never change again. */
  lemma {:induction false} RunMovesForward(s: Store, ops: seq<Op>, id: RecordId)
    requires Sound(s) && id in s.executions
    ensures MovedForward(s, Run(s, ops), id)
    decreases |ops|
  {
    if ops != [] {
      StepMovesForward(s, ops[0], id);
      StepIsSound(s, ops[0]);
      RunMovesForward(Apply(s, ops[0]), ops[1..], id);
    }
  }

  /** Once a later version exists, the old lease can neither publish nor fail the record, ever. */
  lemma SupersededCannotWrite(s: Store, ops: seq<Op>, lease: Lease, code: string, retryable: bool,
                              conditions: Conditions, evidence: Evidence, pricing: Pricing, validityMs: int,
                              now: nat, priced: nat, stored: nat)
    requires Sound(s) && lease.recordId in s.executions
    requires lease.version < s.executions[lease.recordId].version
    ensures var later := Run(s, ops);
            && FailStep(later, lease, code, retryable, now).0 == later
            && FailStep(later, lease, code, retryable, now).1.Err?
            && PublishStep(later, lease, conditions, evidence, pricing, validityMs, now, priced, stored).0 == later
            && PublishStep(later, lease, conditions, evidence, pricing, validityMs, now, priced, stored).1.Err?
            && BudgetStep(later, lease, 0, now) == Err(PREQUOTE_LEASE_LOST)
  {
    RunMovesForward(s, ops, lease.recordId);
  }

  /** A lease issued now is the only one that passes the fence, and it supersedes every earlier one. */
  lemma AcquisitionFences(s: Store, client: Client, key: string, conditions: Conditions, p: LeasePolicy, now: nat, other: Lease, t: nat)
    requires Sound(s)
    requires var r := ReserveStep(s, client, key, conditions, p, now).1; r.Ok? && r.value.Acquired?
    ensures var (after, r) := ReserveStep(s, client, key, conditions, p, now);
            var lease := r.value.lease;
            && Owned(after, lease, now)
            && lease.owner >= s.nextUuid
            && (other.recordId == lease.recordId && Owned(after, other, t) ==> other == lease)
            && (other.recordId == lease.recordId && Owned(s, other, now) ==> false)
            && (lease.recordId in s.executions ==> s.executions[lease.recordId].version < lease.version)
  {}

  /** A step some other holder or caller takes before the lease would expire. */
  predicate ByOthers(op: Op, lease: Lease, until: int) {
    match op
    case ReserveOp(_, _, _, _, now) => now < until
    case FailOp(other, _, _, _) => other != lease
    case PublishOp(other, _, _, _, _, _, _, _) => other != lease
    case ForeignOp(_, _, _, _, _) => true
  }

  lemma OthersLeaveTheLease(s: Store, op: Op, lease: Lease, until: int, t: nat)
    requires Sound(s) && Owned(s, lease, t) && ByOthers(op, lease, until)
    requires until <= s.executions[lease.recordId].leaseExpiresAt
    ensures lease.recordId in Apply(s, op).executions && lease.recordId in Apply(s, op).records
    ensures Apply(s, op).executions[lease.recordId] == s.executions[lease.recordId]
  {}

  /**
   * What a granted budget is worth: whatever everybody else does in the meantime, the holder passes the
   * fence at every instant of the time it asked for.
   */
  lemma {:induction false} BudgetOutlastsOthers(s: Store, lease: Lease, remainingMs: int, now: nat, ops: seq<Op>, t: nat)
    requires Sound(s) && now <= t
    requires forall i :: 0 <= i < |ops| ==> ByOthers(ops[i], lease, now + remainingMs)
    ensures BudgetStep(s, lease, remainingMs, now).Ok? && (t < now + remainingMs || t == now) ==> Owned(Run(s, ops), lease, t)
    decreases |ops|
  {
    if BudgetStep(s, lease, remainingMs, now).Ok? && ops != [] {
      OthersLeaveTheLease(s, ops[0], lease, now + remainingMs, now);
      StepIsSound(s, ops[0]);
      assert forall i :: 0 <= i < |ops[1..]| ==> ops[1..][i] == ops[i + 1];
      BudgetOutlastsOthers(Apply(s, ops[0]), lease, remainingMs, now, ops[1..], t);
    }
  }

  lemma BudgetIsTheTimeLeft(s: Store, lease: Lease, remainingMs: int, now: nat)
    ensures BudgetStep(s, lease, remainingMs, now).Ok? <==>
              Owned(s, lease, now) && forall t: nat :: now <= t < now + remainingMs ==> Owned(s, lease, t)
  {
    if Owned(s, lease, now) && BudgetStep(s, lease, remainingMs, now).Err? {
      assert !Owned(s, lease, s.executions[lease.recordId].leaseExpiresAt);
    }
  }

  // ---------------------------------------------------------------- inspection predicts reservation

  /**
   * For a valid key and policy, on the same state and clock: `available` is seen exactly when the
   * reservation acquires, and every other answer or error is the same.
   */
  lemma InspectPredictsReserve(s: Store, client: Client, key: string, conditions: Conditions, p: LeasePolicy, now: nat)
    requires KeyOk(key) && PolicyOk(p)
    ensures var seen := InspectStep(s, client, key, conditions, now);
            var done := ReserveStep(s, client, key, conditions, p, now).1;
            && (seen == Ok(Available) <==> done.Ok? && done.value.Acquired?)
            && (seen != Ok(Available) ==> done == seen)
  {}

  // ---------------------------------------------------------------- the service

  class PrequotePersistenceService {
    var records: map<RecordId, Record>
    var executions: map<RecordId, Execution>
    var prequotes: map<nat, Prequote>
    var nextUuid: nat

    function View(): Store reads this { Store(records, executions, prequotes, nextUuid) }

    constructor ()
      ensures View() == EMPTY
    {
      records, executions, prequotes, nextUuid := map[], map[], map[], 0;
    }

    /** Reads only, and foretells what a reservation under any valid policy would answer now. */
    method Inspect(client: Client, key: string, conditions: Conditions, now: nat) returns (r: Result<Answer, Error>)
      ensures r == InspectStep(View(), client, key, conditions, now)
      ensures KeyOk(key) ==> forall p :: PolicyOk(p) ==>
                var done := ReserveStep(View(), client, key, conditions, p, now).1;
                (r == Ok(Available) <==> done.Ok? && done.value.Acquired?) && (r != Ok(Available) ==> done == r)
    {
      var id := RecordId(client, key);
      r := Ok(Available);
      if id in records {
        var record := records[id];
        if !SameRequest(record, conditions) || id !in executions { return Err(IDEMPOTENCY_CONFLICT); }
        var x := executions[id];
        if x.state.SUCCEEDED? {
          r := PublishedOffer(View(), record.resourceId);
        } else if x.state.FAILED? {
          r := Ok(Failed(if x.errorCode.Some? then x.errorCode.value else ""));
        } else if x.state.PROCESSING? && x.leaseExpiresAt > now {
          r := Ok(InProgress(x.leaseExpiresAt));
        } else if x.attempts >= x.maxAttempts {
          r := Ok(Failed("ATTEMPTS_EXHAUSTED"));
        }
      }
    }

    method RequireRoutingBudget(lease: Lease, remainingMs: int, now: nat) returns (r: Result<(), Error>)
      ensures r == BudgetStep(View(), lease, remainingMs, now)
      ensures r.Ok? <==> Owned(View(), lease, now) && forall t: nat :: now <= t < now + remainingMs ==> Owned(View(), lease, t)
    {
      BudgetIsTheTimeLeft(View(), lease, remainingMs, now);
      if !Owned(View(), lease, now) { return Err(PREQUOTE_LEASE_LOST); }
      if executions[lease.recordId].leaseExpiresAt - now < remainingMs { return Err(PREQUOTE_LEASE_BUDGET_INSUFFICIENT); }
      return Ok(());
    }

    method Reserve(client: Client, key: string, conditions: Conditions, policy: LeasePolicy, now: nat)
      returns (r: Result<Answer, Error>)
      modifies this
      ensures (View(), r) == ReserveStep(old(View()), client, key, conditions, policy, now)
    {
      if !KeyOk(key) || !PolicyOk(policy) { return Err(PREQUOTE_POLICY_INVALID); }
      // Insert the record first; a duplicate key leaves the existing one in place.
      var id := RecordId(client, key);
      var inserted := id !in records;
      if inserted {
        records := records[id := Record(PREQUOTE_OPERATION, PREQUOTE_RESOURCE, PrequotePayload(conditions), nextUuid)];
        nextUuid := nextUuid + 1;
      }
      var record := records[id];
      if !SameRequest(record, conditions) { return Err(IDEMPOTENCY_CONFLICT); }
      var execution;
      if inserted {
        execution := Execution(PROCESSING, nextUuid, 1, 1, policy.maxAttempts, now + policy.leaseMs, None);
      } else {
        if id !in executions { return Err(IDEMPOTENCY_CONFLICT); }
        execution := executions[id];
        if execution.state.SUCCEEDED? { return PublishedOffer(View(), record.resourceId); }
        if execution.state.FAILED? {
          return Ok(Failed(if execution.errorCode.Some? then execution.errorCode.value else ""));
        }
        if execution.state.PROCESSING? && execution.leaseExpiresAt > now {
          return Ok(InProgress(execution.leaseExpiresAt));
        }
        if execution.attempts >= execution.maxAttempts {
          executions := executions[id := execution.(state := FAILED, errorCode := Some("ATTEMPTS_EXHAUSTED"))];
          return Ok(Failed("ATTEMPTS_EXHAUSTED"));
        }
        execution := TakeOver(execution, nextUuid, policy, now);
      }
      executions := executions[id := execution];
      nextUuid := nextUuid + 1;
      return Ok(Acquired(Lease(id, client, execution.owner, execution.version), record.resourceId));
    }

    method Fail(lease: Lease, code: string, retryable: bool, now: nat) returns (r: Result<ExecutionState, Error>)
      modifies this`executions
      ensures (View(), r) == FailStep(old(View()), lease, code, retryable, now)
    {
      if !ErrorCodeOk(code) { return Err(PREQUOTE_ERROR_CODE_INVALID); }
      if !Owned(View(), lease, now) { return Err(PREQUOTE_LEASE_LOST); }
      var x := executions[lease.recordId];
      var state := if retryable && x.attempts < x.maxAttempts then RETRYABLE_FAILED else FAILED;
      executions := executions[lease.recordId := x.(state := state, errorCode := Some(code))];
      return Ok(state);
    }

    method Publish(lease: Lease, conditions: Conditions, evidence: Evidence, pricing: Pricing, validityMs: int,
                   now: nat, priced: nat, stored: nat) returns (r: Result<Prequote, Error>)
      modifies this`executions, this`prequotes
      ensures (View(), r) ==
              PublishStep(old(View()), lease, conditions, evidence, pricing, validityMs, now, priced, stored)
    {
      if !(1 <= validityMs <= 86400000) { return Err(PREQUOTE_DURATION_INVALID); }
      if !Owned(View(), lease, now) { return Err(PREQUOTE_LEASE_LOST); }
      var record := records[lease.recordId];
      if record.request != PrequotePayload(conditions) { return Err(IDEMPOTENCY_CONFLICT); }
      if pricing.Unprepared? { return Err(PRICING_REFUSED(pricing.code)); }
      if pricing.zoneId != evidence.zoneId || pricing.ratePlanId != evidence.ratePlanId || pricing.currency != "MXN" {
        return Err(PREQUOTE_CONFIGURATION_CHANGED);
      }
      if pricing.price.Err? { return Err(PRICING_REFUSED(pricing.price.error)); }
      if !Owned(View(), lease, priced) { return Err(PREQUOTE_LEASE_LOST); }
      if record.resourceId in prequotes { return Err(STORAGE_CONFLICT); }
      var offer := OfferOf(evidence, pricing.price.value);
      var quote := Prequote(lease.recordId, lease.client, conditions, offer, priced, priced + validityMs);
      // A lease that expires here rolls the inserted offer back with the rest of the transaction.
      if !Owned(View(), lease, stored) { return Err(PREQUOTE_LEASE_LOST); }
      prequotes := prequotes[record.resourceId := quote];
      executions := executions[lease.recordId := executions[lease.recordId].(state := SUCCEEDED, errorCode := None)];
      return Ok(quote);
    }
  }
}
