/**
 * `create` as one backend runs it, step after durable step, over the two services it composes. What the
 * outside answers on the way (switches, authorization, pricing, routing, how long each step waits) is
 * given to it as an environment. `trace` records the steps it has taken: a service is at every moment
 * the result of a run of PrequoteWorld, so what holds over all runs holds of it.
 *
 * Other backends interleave with it in PrequoteWorld, not here: this is the order of one call's steps.
 */
module PrequotesService {
  import opened Common
  import P = ConsumptionPolicy
  import L = PermitLedger
  import S = PrequoteStore
  import W = PrequoteWorld

  /** The zone and plan found before routing. */
  datatype Configuration = Configuration(zoneId: nat, ratePlanId: nat)

  /** What one call meets outside. `waits` are the delays before each clock reading, in order. */
  datatype Environment = Environment(
    enabledAtEntry: bool, authorizedAtEntry: bool, enabledAfterAdmission: bool,
    configuration: Result<Configuration, string>, authorizedBeforeStart: bool, enabledBeforeStart: bool,
    authorizedAfterStart: bool, enabledBeforeRouting: bool,
    route: Result<S.Route, string>, duration: nat, authorizedAfterRouting: bool,
    pricing: S.Pricing, validityMs: int, authorizedAfterRecheck: bool, answered: Answered, waits: Waits)

  /** Whether the answer to each commit arrives; the commit itself is durable either way. */
  datatype Answered = Answered(reserve: bool, publish: bool, fail: bool)

  datatype Waits = Waits(
    inspect: nat, admit: nat, reserve: nat, start: nat, budget: nat, ready: nat, route: nat,
    publish: nat, priced: nat, stored: nat, fail: nat, recheck: nat, finish: nat)

  /** Who calls, for what, on which backend, and the fresh secrets of its permit. */
  datatype Caller = Caller(
    client: P.Client, key: string, conditions: S.Conditions, inst: W.Instance, owner: nat, permit: nat)

  datatype Failure =
    | IDEMPOTENCY_KEY_INVALID | Public(code: string) | InProgress(retryAt: nat) | Denied(retryAt: nat)
    | Store(error: S.Error) | AnswerLost

  datatype Reply = Reply(prequote: S.Prequote, replayed: bool)

  const AUTHORIZATION := "PREQUOTE_AUTHORIZATION_CHANGED"
  const NOT_RETRYABLE: seq<string> := [
    "ROUTE_NOT_FOUND", "DISTANCE_NOT_SUPPORTED", "OUT_OF_SERVICE_AREA", "CROSS_ZONE_NOT_SUPPORTED", AUTHORIZATION]
  const CONFIGURATION_CODES: seq<string> := [
    "OUT_OF_SERVICE_AREA", "CROSS_ZONE_NOT_SUPPORTED", "RATE_CONFIGURATION_UNAVAILABLE", "RATE_CONFIGURATION_INVALID",
    "SERVICE_ZONE_AMBIGUOUS"]

  /** The code an error of publication is recorded under. */
  function PublishCode(e: S.Error): string {
    match e
    case PRICING_REFUSED(code) => if code in CONFIGURATION_CODES then "PREQUOTE_CONFIGURATION_CHANGED" else code
    case PREQUOTE_CONFIGURATION_CHANGED => "PREQUOTE_CONFIGURATION_CHANGED"
    case PREQUOTE_LEASE_LOST => "PREQUOTE_LEASE_LOST"
    case IDEMPOTENCY_CONFLICT => "IDEMPOTENCY_CONFLICT"
    case PREQUOTE_DURATION_INVALID => "PREQUOTE_DURATION_INVALID"
    case _ => "PREQUOTE_EXECUTION_FAILED"
  }

  /** Each world is the one before it, one step later, from the empty world on. */
  ghost predicate Link(worlds: seq<W.World>, trace: seq<W.Step>, i: nat)
    requires i < |trace| < |worlds|
  {
    worlds[i + 1] == W.Apply(worlds[i], trace[i])
  }

  ghost predicate Chained(worlds: seq<W.World>, trace: seq<W.Step>) {
    && |worlds| == |trace| + 1 && worlds[0] == W.START
    && forall i :: 0 <= i < |trace| ==> Link(worlds, trace, i)
  }

  /** So the last world is the result of a run, and everything proved of runs holds of it. */
  lemma {:induction false} ChainIsARun(worlds: seq<W.World>, trace: seq<W.Step>)
    requires Chained(worlds, trace)
    ensures worlds[|trace|] == W.Run(W.START, trace)
    decreases |trace|
  {
    if trace != [] {
      var n := |trace| - 1;
      var ws, ts := worlds[..n + 1], trace[..n];
      forall k | 0 <= k < |ts| ensures Link(ws, ts, k) { assert Link(worlds, trace, k); }
      ChainIsARun(ws, ts);
      assert Link(worlds, trace, n);
      RunAppends(W.START, trace[..n], trace[n]);
      assert trace == trace[..n] + [trace[n]];
    }
  }

  /** One backend's calls, one after another, never route more than the slots allow nor outlive a key's attempts. */
  lemma ServiceStaysWithinLimits(worlds: seq<W.World>, trace: seq<W.Step>, client: P.Client, t: nat, id: S.RecordId)
    requires Chained(worlds, trace)
    ensures var w := worlds[|trace|];
            && (w.calls != [] ==>
                  w.ledger.policy.Some? && W.InFlight(w.calls, client, t) <= w.ledger.policy.value.concurrent)
            && (id in w.store.executions ==> W.CallsFor(w.calls, id) <= w.store.executions[id].maxAttempts <= 5)
  {
    ChainIsARun(worlds, trace);
    if worlds[|trace|].calls != [] { W.RoutingStaysWithinSlots(trace, client, t); }
    if id in worlds[|trace|].store.executions { W.CallsPerKeyAreBounded(trace, id); }
  }

  lemma {:induction false} RunAppends(w: W.World, steps: seq<W.Step>, step: W.Step)
    ensures W.Run(w, steps + [step]) == W.Apply(W.Run(w, steps), step)
    decreases |steps|
  {
    if steps == [] {
      assert (steps + [step])[1..] == [];
    } else {
      assert (steps + [step])[1..] == steps[1..] + [step];
      RunAppends(W.Apply(w, steps[0]), steps[1..], step);
    }
  }

  /** The code a refusal of the permit carries. */
  function PermitCode(e: L.Error): string {
    match e
    case PREQUOTE_DISABLED => "PREQUOTE_DISABLED"
    case PREQUOTE_CONSUMPTION_UNAVAILABLE => "PREQUOTE_CONSUMPTION_UNAVAILABLE"
    case PREQUOTE_PERMIT_INVALID => "PREQUOTE_PERMIT_INVALID"
    case STORAGE_CONFLICT => "PREQUOTE_EXECUTION_FAILED"
  }

  /** The reading of an answer that settles the call before it does any work. */
  function Resolved(a: Result<S.Answer, S.Error>): Option<Result<Reply, Failure>> {
    match a
    case Err(e) => Some(Err(Store(e)))
    case Ok(Succeeded(prequote)) => Some(Ok(Reply(prequote, true)))
    case Ok(Failed(code)) => Some(Err(Public(code)))
    case Ok(InProgress(retryAt)) => Some(Err(InProgress(retryAt)))
    case Ok(Available) => None
    case Ok(Acquired(_, _)) => None
  }

  class PrequotesService {
    const consumption: L.DurablePrequoteConsumption
    const persistence: S.PrequotePersistenceService
    var clock: nat
    ghost var trace: seq<W.Step>
    ghost var worlds: seq<W.World>
    ghost var world: W.World

    /** The world these steps lead to has this service's ledger, store and clock. */
    ghost predicate InStep() reads this, consumption, persistence {
      && Chained(worlds, trace) && worlds[|trace|] == world
      && world.ledger == consumption.View() && world.store == persistence.View() && world.clock == clock
    }

    /** Between calls nothing is in progress. */
    ghost predicate Valid() reads this, consumption, persistence { InStep() && world.procs == map[] }

    constructor ()
      ensures Valid() && fresh(consumption) && fresh(persistence) && trace == []
    {
      consumption := new L.DurablePrequoteConsumption();
      persistence := new S.PrequotePersistenceService();
      clock := 0;
      trace, worlds, world := [], [W.START], W.START;
    }

    ghost method Record(step: W.Step)
      requires Chained(worlds, trace) && worlds[|trace|] == world
      modifies this`trace, this`worlds, this`world
      ensures Chained(worlds, trace) && worlds[|trace|] == world == W.Apply(old(world), step)
      ensures trace == old(trace) + [step]
    {
      ghost var before := worlds;
      world := W.Apply(world, step);
      worlds := worlds + [world];
      trace := trace + [step];
      forall i | 0 <= i < |trace| ensures Link(worlds, trace, i) {
        if i < |trace| - 1 { assert Link(before, old(trace), i); }
      }
    }

    method Wait(ms: nat)
      requires InStep()
      modifies this
      ensures InStep() && clock == old(clock) + ms && world == old(world).(clock := clock)
    {
      clock := clock + ms;
      Record(W.Tick(clock));
    }

    /** The offer stored for a key. */
    predicate Holds(client: P.Client, key: string, q: S.Prequote) reads persistence {
      var id := S.RecordId(client, key);
      id in persistence.records && persistence.records[id].resourceId in persistence.prequotes
      && persistence.prequotes[persistence.records[id].resourceId] == q
    }

    /** The offer stored for this very request, which everybody who asks for it finds. */
    predicate Offered(c: Caller, q: S.Prequote) reads persistence {
      W.Offered(persistence.View(), c.client, c.key, c.conditions, q)
    }

    /** Process 0 is the only call, at this stage, with its permit and what it will report. */
    ghost predicate Mine(stage: W.Stage, c: Caller, report: P.Report) reads this, consumption, persistence {
      && InStep() && world.procs.Keys == {0}
      && var p := world.procs[0];
         p.stage == stage && p.inst == c.inst && p.client == c.client && p.key == c.key && p.conditions == c.conditions
         && p.owner == c.owner && p.permit == c.permit && p.report == report
    }

    ghost predicate MyLease(lease: S.Lease) reads this { 0 in world.procs && world.procs[0].lease == lease }

    // Each of the following is one durable step: its effect on a service and the same step of the world.

    method Begin(c: Caller)
      requires Valid() && S.KeyOk(c.key)
      requires S.InspectStep(persistence.View(), c.client, c.key, c.conditions, clock) == Ok(S.Available)
      modifies this`trace, this`worlds, this`world
      ensures InStep() && world.procs.Keys == {0} && world.calls == old(world.calls)
      ensures var p := world.procs[0];
              p.stage == W.INSPECTED && p.inst == c.inst && p.client == c.client && p.key == c.key
              && p.conditions == c.conditions && p.report == P.Report(false, false)
    {
      Record(W.Begin(0, c.inst, c.client, c.key, c.conditions));
    }

    method Admit(c: Caller) returns (r: Result<L.Decision, L.Error>)
      requires InStep() && world.procs.Keys == {0}
      requires var p := world.procs[0];
               p.stage == W.INSPECTED && p.inst == c.inst && p.client == c.client && p.key == c.key
               && p.conditions == c.conditions && p.report == P.Report(false, false)
      modifies this`trace, this`worlds, this`world, consumption
      ensures r.Ok? && r.value.Admitted? ==> Mine(W.ADMITTED, c, P.Report(false, false))
      ensures !(r.Ok? && r.value.Admitted?) ==> Valid()
      ensures world.calls == old(world.calls)
    {
      r := consumption.Admit(c.inst.cfg, c.client, c.owner, c.permit, clock);
      Record(W.Admit(0, c.owner, c.permit));
    }

    method Reserve(c: Caller, answered: bool) returns (r: Result<S.Answer, S.Error>)
      requires Mine(W.ADMITTED, c, P.Report(false, false))
      modifies this`trace, this`worlds, this`world, persistence
      ensures answered && r.Ok? && r.value.Acquired? ==>
                Mine(W.LEASED, c, P.Report(false, false)) && MyLease(r.value.lease)
                && r.value.lease.recordId == S.RecordId(c.client, c.key)
      ensures !(answered && r.Ok? && r.value.Acquired?) ==> Mine(W.CLOSING, c, P.Report(false, false))
      ensures r.Ok? && r.value.Succeeded? ==> Holds(c.client, c.key, r.value.prequote)
      ensures world.calls == old(world.calls)
      ensures forall q :: Offered(c, q) ==> old(Offered(c, q))
    {
      r := persistence.Reserve(c.client, c.key, c.conditions, c.inst.lease, clock);
      Record(W.Reserve(0, answered));
    }

    method StartPermit(c: Caller, lease: S.Lease) returns (r: Result<(), L.Error>)
      requires Mine(W.LEASED, c, P.Report(false, false)) && MyLease(lease)
      modifies this`trace, this`worlds, this`world, consumption
      ensures Mine(if r.Ok? then W.STARTED else W.ABORTING, c, P.Report(false, false)) && MyLease(lease)
      ensures world.calls == old(world.calls)
    {
      r := consumption.StartPermit(c.inst.cfg, c.permit, c.owner, clock);
      Record(W.StartPermit(0));
    }

    method RequireBudget(c: Caller, lease: S.Lease) returns (r: Result<(), S.Error>)
      requires Mine(W.STARTED, c, P.Report(false, false)) && MyLease(lease)
      modifies this`trace, this`worlds, this`world
      ensures Mine(if r.Ok? then W.BUDGETED else W.ABORTING, c, P.Report(false, false)) && MyLease(lease)
      ensures world.calls == old(world.calls)
    {
      r := persistence.RequireRoutingBudget(lease, P.RoutingProtectionMs(c.inst.cfg.limits), clock);
      Record(W.RequireBudget(0));
    }

    method AssertReady(c: Caller, lease: S.Lease) returns (r: Result<(), L.Error>)
      requires Mine(W.BUDGETED, c, P.Report(false, false)) && MyLease(lease)
      modifies this`trace, this`worlds, this`world
      ensures Mine(if r.Ok? then W.READY else W.ABORTING, c, P.Report(false, false)) && MyLease(lease)
      ensures r.Ok? ==> world.procs[0].readyAt == clock
      ensures world.calls == old(world.calls)
    {
      r := consumption.AssertReady(c.inst.cfg, c.permit, c.owner, clock);
      Record(W.AssertReady(0));
    }

    /** Something threw between the lease and the answer. */
    method Throw(c: Caller, lease: S.Lease, stage: W.Stage, report: P.Report)
      requires Mine(stage, c, report) && MyLease(lease)
      requires stage == W.LEASED || stage == W.STARTED || stage == W.READY || stage == W.ROUTING
      modifies this`trace, this`worlds, this`world
      ensures Mine(W.ABORTING, c, report) && MyLease(lease) && world.calls == old(world.calls)
    {
      Record(W.Throw(0));
    }

    method Route(c: Caller, lease: S.Lease, duration: nat)
      requires Mine(W.READY, c, P.Report(false, false)) && MyLease(lease)
      requires clock <= world.procs[0].readyAt + W.ROUTING_SLACK_MS && duration <= W.LongestRoute(c.inst.cfg)
      modifies this
      ensures Mine(W.ROUTING, c, P.Report(true, false)) && MyLease(lease) && clock == old(clock) + duration
      ensures world.procs[0].ends <= clock && |world.calls| == |old(world.calls)| + 1
    {
      Record(W.Route(0, duration));
      Wait(duration);
    }

    /** When the answer is lost, the offer may be stored all the same. */
    method Publish(c: Caller, lease: S.Lease, evidence: S.Evidence, env: Environment) returns (r: Result<S.Prequote, string>)
      requires Mine(W.ROUTING, c, P.Report(true, false)) && MyLease(lease) && world.procs[0].ends <= clock
      requires lease.recordId == S.RecordId(c.client, c.key)
      modifies this, persistence
      ensures r.Ok? ==> Mine(W.CLOSING, c, P.Report(true, true)) && Holds(c.client, c.key, r.value)
      ensures r.Err? ==> Mine(W.ABORTING, c, P.Report(true, false)) && MyLease(lease)
      ensures world.calls == old(world.calls)
    {
      var priced := clock + env.waits.priced;
      var stored := priced + env.waits.stored;
      var published := persistence.Publish(lease, c.conditions, evidence, env.pricing, env.validityMs, clock, priced, stored);
      Record(W.Publish(0, evidence, env.pricing, env.validityMs, priced, stored, env.answered.publish));
      clock := stored;
      r := if !env.answered.publish then Err("PREQUOTE_EXECUTION_FAILED")
           else if published.Err? then Err(PublishCode(published.error)) else Ok(published.value);
    }

    method Fail(c: Caller, lease: S.Lease, code: string, retryable: bool, report: P.Report) returns (r: Result<S.ExecutionState, S.Error>)
      requires Mine(W.ABORTING, c, report) && MyLease(lease) && lease.recordId == S.RecordId(c.client, c.key)
      modifies this`trace, this`worlds, this`world, persistence
      ensures Mine(W.CLOSING, c, report) && world.calls == old(world.calls)
      ensures forall q :: Offered(c, q) <==> old(Offered(c, q))
      ensures forall q :: old(Offered(c, q)) ==> r.Err?
    {
      r := persistence.Fail(lease, code, retryable, clock);
      Record(W.Fail(0, code, retryable));
    }

    method Recheck(c: Caller, authorized: bool, before: P.Report) returns (r: Result<S.Answer, S.Error>, report: P.Report)
      requires Mine(W.CLOSING, c, before)
      modifies this`trace, this`worlds, this`world
      ensures Mine(W.CLOSING, c, report) && world.calls == old(world.calls)
      ensures report == if r.Ok? && r.value.Succeeded? && authorized then P.Report(before.routingStarted, true) else before
      ensures r.Ok? && r.value.Succeeded? ==> Holds(c.client, c.key, r.value.prequote)
      ensures forall q :: Offered(c, q) ==> r == Ok(S.Succeeded(q))
    {
      r := persistence.Inspect(c.client, c.key, c.conditions, clock);
      Record(W.Recheck(0, authorized));
      report := if r.Ok? && r.value.Succeeded? && authorized then P.Report(before.routingStarted, true) else before;
    }

    method Finish(c: Caller, report: P.Report)
      requires Mine(W.CLOSING, c, report)
      modifies this`trace, this`worlds, this`world, consumption
      ensures Valid() && world.calls == old(world.calls)
    {
      var finished := consumption.FinishPermit(c.permit, c.owner, report, clock);
      Record(W.Finish(0));
    }

    // ------------------------------------------------------------ the call

    /**
     * One call from beginning to end. Whatever the environment answers, its steps are a run of the
     * world, nothing of it stays in progress, it routes at most once, and success is only ever answered
     * with the offer stored for the key. An offer it published it answers, also when the answer to the
     * commit was lost, unless its authorization ended meanwhile.
     */
    method Create(c: Caller, env: Environment) returns (r: Result<Reply, Failure>)
      requires Valid()
      requires env.waits.route <= W.ROUTING_SLACK_MS && env.duration <= W.LongestRoute(c.inst.cfg)
      modifies this, consumption, persistence
      ensures Valid()
      ensures |world.calls| <= |old(world.calls)| + 1
      ensures r.Ok? ==> Holds(c.client, c.key, r.value.prequote)
      ensures r.Ok? && !r.value.replayed ==> |world.calls| == |old(world.calls)| + 1
      ensures env.authorizedAfterRecheck ==>
                forall q :: Offered(c, q) && !old(Offered(c, q)) ==> r.Ok? && r.value.prequote == q
    {
      var settled := Enter(c, env);
      if settled.Some? { return settled.value; }
      var report;
      r, report := Attempt(c, env);
      // Finally: whatever happened, the permit is given back with what is known of the attempt.
      Wait(env.waits.finish);
      Finish(c, report);
    }

    /** Up to the admission: what was settled before is answered, and what may not enter is refused. */
    method Enter(c: Caller, env: Environment) returns (settled: Option<Result<Reply, Failure>>)
      requires Valid()
      modifies this, consumption
      ensures settled.None? ==> Mine(W.ADMITTED, c, P.Report(false, false))
      ensures settled.Some? ==> Valid()
      ensures settled.Some? && settled.value.Ok? ==> Holds(c.client, c.key, settled.value.value.prequote) && settled.value.value.replayed
      ensures world.calls == old(world.calls)
    {
      if !S.KeyOk(c.key) { return Some(Err(IDEMPOTENCY_KEY_INVALID)); }
      Wait(env.waits.inspect);
      var seen := persistence.Inspect(c.client, c.key, c.conditions, clock);
      settled := Resolved(seen);
      if settled.Some? { return; }
      if !env.enabledAtEntry { return Some(Err(Public("PREQUOTE_DISABLED"))); }
      if !env.authorizedAtEntry { return Some(Err(Public(AUTHORIZATION))); }
      Begin(c);
      Wait(env.waits.admit);
      var admission := Admit(c);
      if admission.Err? {
        return Some(Err(Public(if admission.error.PREQUOTE_DISABLED? then "PREQUOTE_DISABLED" else "PREQUOTE_CONSUMPTION_UNAVAILABLE")));
      }
      if admission.value.Denied? { return Some(Err(Denied(admission.value.retryAt))); }
    }

    /** From an admitted call to one that only has its permit left to finish. */
    method Attempt(c: Caller, env: Environment) returns (r: Result<Reply, Failure>, report: P.Report)
      requires Mine(W.ADMITTED, c, P.Report(false, false))
      requires env.waits.route <= W.ROUTING_SLACK_MS && env.duration <= W.LongestRoute(c.inst.cfg)
      modifies this, consumption, persistence
      ensures Mine(W.CLOSING, c, report)
      ensures |world.calls| == |old(world.calls)| + (if report.routingStarted then 1 else 0)
      ensures r.Ok? ==> Holds(c.client, c.key, r.value.prequote)
      ensures r.Ok? && !r.value.replayed ==> report.routingStarted && report.published
      ensures env.authorizedAfterRecheck ==>
                forall q :: Offered(c, q) && !old(Offered(c, q)) ==> r.Ok? && r.value.prequote == q && report.published
    {
      report := P.Report(false, false);
      if !env.enabledAfterAdmission {
        Record(W.Throw(0));
        return Err(Public("PREQUOTE_DISABLED")), report;
      }
      Wait(env.waits.reserve);
      var reserved := Reserve(c, env.answered.reserve);
      if !env.answered.reserve { return Err(AnswerLost), report; }
      var settled := Resolved(reserved);
      if settled.Some? { return settled.value, report; }
      if reserved.value.Available? { return Err(Public("PREQUOTE_EXECUTION_FAILED")), report; }
      var lease := reserved.value.lease;
      var outcome;
      outcome, report := Work(c, env, lease);
      if outcome.Ok? { return Ok(Reply(outcome.value, false)), report; }
      r, report := Abandon(c, env, lease, outcome.error, report);
    }

    /** The attempt itself: what must hold first, one route, publication. */
    method Work(c: Caller, env: Environment, lease: S.Lease) returns (outcome: Result<S.Prequote, string>, report: P.Report)
      requires Mine(W.LEASED, c, P.Report(false, false)) && MyLease(lease) && lease.recordId == S.RecordId(c.client, c.key)
      requires env.waits.route <= W.ROUTING_SLACK_MS && env.duration <= W.LongestRoute(c.inst.cfg)
      modifies this, consumption, persistence
      ensures outcome.Ok? ==> Mine(W.CLOSING, c, report) && Holds(c.client, c.key, outcome.value) && report.routingStarted
      ensures outcome.Err? ==> Mine(W.ABORTING, c, report) && MyLease(lease)
      ensures report.published <==> outcome.Ok?
      ensures |world.calls| == |old(world.calls)| + (if report.routingStarted then 1 else 0)
    {
      report := P.Report(false, false);
      var ready := Prepare(c, env, lease);
      if ready.Err? { return Err(ready.error), report; }
      Wait(env.waits.route);
      // No lock is held here, and the adapter is invoked exactly once.
      Route(c, lease, env.duration);
      report := P.Report(true, false);
      if env.route.Err? || !env.authorizedAfterRouting {
        Throw(c, lease, W.ROUTING, report);
        return Err(if env.route.Err? then env.route.error else AUTHORIZATION), report;
      }
      Wait(env.waits.publish);
      var evidence := S.Evidence(ready.value.zoneId, ready.value.ratePlanId, env.route.value);
      var published := Publish(c, lease, evidence, env);
      if published.Err? { return published, report; }
      return published, P.Report(true, true);
    }

    /** Everything that must hold before the route is asked for, in order; the zone and plan it is priced against. */
    method Prepare(c: Caller, env: Environment, lease: S.Lease) returns (ready: Result<Configuration, string>)
      requires Mine(W.LEASED, c, P.Report(false, false)) && MyLease(lease)
      modifies this, consumption
      ensures ready.Ok? ==> Mine(W.READY, c, P.Report(false, false)) && world.procs[0].readyAt == clock
      ensures ready.Err? ==> Mine(W.ABORTING, c, P.Report(false, false))
      ensures MyLease(lease) && world.calls == old(world.calls)
    {
      if env.configuration.Err? || !env.authorizedBeforeStart || !env.enabledBeforeStart {
        Throw(c, lease, W.LEASED, P.Report(false, false));
        return Err(if env.configuration.Err? then env.configuration.error
                   else if !env.authorizedBeforeStart then AUTHORIZATION else "PREQUOTE_DISABLED");
      }
      Wait(env.waits.start);
      var started := StartPermit(c, lease);
      if started.Err? { return Err(PermitCode(started.error)); }
      if !env.authorizedAfterStart {
        Throw(c, lease, W.STARTED, P.Report(false, false));
        return Err(AUTHORIZATION);
      }
      Wait(env.waits.budget);
      var budget := RequireBudget(c, lease);
      if budget.Err? {
        return Err(if budget.error.PREQUOTE_LEASE_LOST? then "PREQUOTE_LEASE_LOST" else "PREQUOTE_LEASE_BUDGET_INSUFFICIENT");
      }
      Wait(env.waits.ready);
      var asserted := AssertReady(c, lease);
      if asserted.Err? { return Err(PermitCode(asserted.error)); }
      if !env.enabledBeforeRouting {
        Throw(c, lease, W.READY, P.Report(false, false));
        return Err("PREQUOTE_DISABLED");
      }
      return Ok(env.configuration.value);
    }

    /** Records the failure; if it cannot, looks whether the offer was published after all. */
    method Abandon(c: Caller, env: Environment, lease: S.Lease, code: string, before: P.Report)
      returns (r: Result<Reply, Failure>, report: P.Report)
      requires Mine(W.ABORTING, c, before) && MyLease(lease) && lease.recordId == S.RecordId(c.client, c.key)
      modifies this, persistence
      ensures Mine(W.CLOSING, c, report) && world.calls == old(world.calls)
      ensures report.routingStarted == before.routingStarted
      ensures r.Ok? ==> Holds(c.client, c.key, r.value.prequote) && r.value.replayed
      ensures forall q :: Offered(c, q) <==> old(Offered(c, q))
      ensures forall q :: old(Offered(c, q)) ==>
                r == (if env.authorizedAfterRecheck then Ok(Reply(q, true)) else Err(Public(AUTHORIZATION)))
                && (env.authorizedAfterRecheck ==> report.published)
    {
      report := before;
      Wait(env.waits.fail);
      var failed := Fail(c, lease, code, code !in NOT_RETRYABLE, report);
      if failed.Ok? && env.answered.fail { return Err(Public(code)), report; }
      Wait(env.waits.recheck);
      var seen;
      seen, report := Recheck(c, env.authorizedAfterRecheck, report);
      var settled := Resolved(seen);
      if settled.None? { return Err(Public("PREQUOTE_LEASE_LOST")), report; }
      if settled.value.Ok? && !env.authorizedAfterRecheck { return Err(Public(AUTHORIZATION)), report; }
      return settled.value, report;
    }
  }
}
