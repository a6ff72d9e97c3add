/**
 * Every `create` call of every backend at once: the permit ledger and the execution store of the two
 * other modules, any number of calls in progress, and the routing calls they have made. Each durable
 * step of a call is one atomic step; between steps anything may happen, including the clock moving on
 * and the call disappearing for good.
 *
 * Two things are assumed of the world outside, and are the guards of `Route`: routing begins within
 * 10 s of the last readiness check, and lasts no longer than its timeout-and-backoff schedule.
 */
module PrequoteWorld {
  import opened Common
  import P = ConsumptionPolicy
  import L = PermitLedger
  import S = PrequoteStore

  const ROUTING_SLACK_MS: nat := 10000

  /** One backend's configuration. Different backends may be configured differently. */
  datatype Instance = Instance(cfg: L.Config, lease: S.LeasePolicy)

  datatype Stage = INSPECTED | ADMITTED | LEASED | STARTED | BUDGETED | READY | ROUTING | ABORTING | CLOSING

  /** One `create` in progress. The fields after `stage` are those learnt so far. */
  datatype Proc = Proc(
    inst: Instance, client: P.Client, key: string, conditions: S.Conditions, stage: Stage,
    owner: nat, permit: nat, lease: S.Lease, budgetAt: nat, until: nat, readyAt: nat, ends: nat,
    report: P.Report)

  /** One invocation of the routing adapter, in flight from `began` to `ends`. */
  datatype Call = Call(client: P.Client, record: S.RecordId, version: nat, permit: nat, began: nat, ends: nat)

  datatype World = World(clock: nat, ledger: L.Ledger, store: S.Store, procs: map<nat, Proc>, calls: seq<Call>)

  const START := World(0, L.EMPTY, S.EMPTY, map[], [])

  datatype Step =
    | Tick(to: nat)
    | Begin(pid: nat, inst: Instance, client: P.Client, key: string, conditions: S.Conditions)
    | Admit(pid: nat, owner: nat, permit: nat)
    | Reserve(pid: nat, answered: bool)
    | StartPermit(pid: nat)
    | RequireBudget(pid: nat)
    | AssertReady(pid: nat)
    | Route(pid: nat, duration: nat)
    | Publish(pid: nat, evidence: S.Evidence, pricing: S.Pricing, validityMs: int, priced: nat, stored: nat, answered: bool)
    | Throw(pid: nat)
    | Fail(pid: nat, code: string, retryable: bool)
    | Recheck(pid: nat, authorized: bool)
    | Finish(pid: nat)
    | Crash(pid: nat)
    | Foreign(client: P.Client, key: string, operation: string, resourceType: string, body: nat)

  predicate At(w: World, pid: nat, stage: Stage) { pid in w.procs && w.procs[pid].stage == stage }

  function Put(w: World, pid: nat, p: Proc): World { w.(procs := w.procs[pid := p]) }

  function Drop(w: World, pid: nat): World { w.(procs := w.procs - {pid}) }

  function BeginStep(w: World, pid: nat, inst: Instance, client: P.Client, key: string, conditions: S.Conditions): World {
    if pid in w.procs || !S.KeyOk(key) || S.InspectStep(w.store, client, key, conditions, w.clock) != Ok(S.Available) then w
    else Put(w, pid, Proc(inst, client, key, conditions, INSPECTED, 0, 0,
                          S.Lease(S.RecordId(client, key), client, 0, 0), 0, 0, 0, 0, P.Report(false, false)))
  }

  /** A refused admission ends the call: there is no permit to give back yet. */
  ghost function AdmitStep(w: World, pid: nat, owner: nat, permit: nat): World {
    if !At(w, pid, INSPECTED) then w
    else
      var p := w.procs[pid];
      var (ledger, r) := L.AdmitStep(w.ledger, p.inst.cfg, p.client, owner, permit, w.clock);
      var next := w.(ledger := ledger);
      if r.Ok? && r.value.Admitted? then Put(next, pid, p.(stage := ADMITTED, owner := owner, permit := r.value.id))
      else Drop(next, pid)
  }

  /** A reservation whose answer is lost leaves its lease behind, for nobody. */
  function ReserveStep(w: World, pid: nat, answered: bool): World {
    if !At(w, pid, ADMITTED) then w
    else
      var p := w.procs[pid];
      var (store, r) := S.ReserveStep(w.store, p.client, p.key, p.conditions, p.inst.lease, w.clock);
      var next := w.(store := store);
      if answered && r.Ok? && r.value.Acquired? then Put(next, pid, p.(stage := LEASED, lease := r.value.lease))
      else Put(next, pid, p.(stage := CLOSING))
  }

  function StartStep(w: World, pid: nat): World {
    if !At(w, pid, LEASED) then w
    else
      var p := w.procs[pid];
      var (ledger, r) := L.StartStep(w.ledger, p.inst.cfg, p.permit, p.owner, w.clock);
      Put(w.(ledger := ledger), pid, p.(stage := if r.Ok? then STARTED else ABORTING))
  }

  function BudgetStep(w: World, pid: nat): World {
    if !At(w, pid, STARTED) then w
    else
      var p := w.procs[pid];
      if S.BudgetStep(w.store, p.lease, P.RoutingProtectionMs(p.inst.cfg.limits), w.clock).Ok? then
        Put(w, pid, p.(stage := BUDGETED, budgetAt := w.clock,
                       until := w.store.executions[p.lease.recordId].leaseExpiresAt))
      else Put(w, pid, p.(stage := ABORTING))
  }

  function ReadyStep(w: World, pid: nat): World {
    if !At(w, pid, BUDGETED) then w
    else
      var p := w.procs[pid];
      if L.ReadyStep(w.ledger, p.inst.cfg, p.permit, p.owner, w.clock).Ok? then
        Put(w, pid, p.(stage := READY, readyAt := w.clock))
      else Put(w, pid, p.(stage := ABORTING))
  }

  /** Longest run the adapter allows itself under this configuration. */
  function LongestRoute(cfg: L.Config): nat {
    if cfg.limits.retries < 0 || cfg.limits.timeoutMs < 0 then 0
    else P.Schedule(cfg.limits.timeoutMs, 0, cfg.limits.retries)
  }

  function RouteStep(w: World, pid: nat, duration: nat): World {
    if !At(w, pid, READY) then w
    else
      var p := w.procs[pid];
      if w.clock > p.readyAt + ROUTING_SLACK_MS || duration > LongestRoute(p.inst.cfg) then w
      else
        var call := Call(p.client, p.lease.recordId, p.lease.version, p.permit, w.clock, w.clock + duration);
        Put(w.(calls := w.calls + [call]), pid,
            p.(stage := ROUTING, ends := w.clock + duration, report := P.Report(true, false)))
  }

  /**
   * Publication happens after routing has returned, and takes until its last look at the clock. When the
   * answer to its commit is lost, what it wrote stays written and the call takes it for a failure.
   */
  function PublishStep(w: World, pid: nat, evidence: S.Evidence, pricing: S.Pricing, validityMs: int,
                       priced: nat, stored: nat, answered: bool): World {
    if !At(w, pid, ROUTING) || w.clock < w.procs[pid].ends || !(w.clock <= priced <= stored) then w
    else
      var p := w.procs[pid];
      var (store, r) := S.PublishStep(w.store, p.lease, p.conditions, evidence, pricing, validityMs, w.clock, priced, stored);
      Put(w.(store := store, clock := stored), pid,
          if answered && r.Ok? then p.(stage := CLOSING, report := P.Report(true, true)) else p.(stage := ABORTING))
  }

  /** Anything that can throw between the lease and the answer: authorization, pricing, routing. */
  function ThrowStep(w: World, pid: nat): World {
    if pid !in w.procs then w
    else
      match w.procs[pid].stage
      case ADMITTED => Put(w, pid, w.procs[pid].(stage := CLOSING))
      case INSPECTED | ABORTING | CLOSING => w
      case _ => Put(w, pid, w.procs[pid].(stage := ABORTING))
  }

  function FailStep(w: World, pid: nat, code: string, retryable: bool): World {
    if !At(w, pid, ABORTING) then w
    else
      var p := w.procs[pid];
      Put(w.(store := S.FailStep(w.store, p.lease, code, retryable, w.clock).0), pid, p.(stage := CLOSING))
  }

  /** A failure that could not be recorded looks once more: a published offer may only have lost its answer. */
  function RecheckStep(w: World, pid: nat, authorized: bool): World {
    if !At(w, pid, CLOSING) then w
    else
      var p := w.procs[pid];
      var seen := S.InspectStep(w.store, p.client, p.key, p.conditions, w.clock);
      if seen.Ok? && seen.value.Succeeded? && authorized
      then Put(w, pid, p.(report := P.Report(p.report.routingStarted, true))) else w
  }

  function FinishStep(w: World, pid: nat): World {
    if !At(w, pid, CLOSING) then w
    else
      var p := w.procs[pid];
      Drop(w.(ledger := L.FinishStep(w.ledger, p.permit, p.owner, p.report, w.clock).0), pid)
  }

  ghost function Apply(w: World, step: Step): World {
    match step
    case Tick(to) => if to < w.clock then w else w.(clock := to)
    case Begin(pid, inst, client, key, conditions) => BeginStep(w, pid, inst, client, key, conditions)
    case Admit(pid, owner, permit) => AdmitStep(w, pid, owner, permit)
    case Reserve(pid, answered) => ReserveStep(w, pid, answered)
    case StartPermit(pid) => StartStep(w, pid)
    case RequireBudget(pid) => BudgetStep(w, pid)
    case AssertReady(pid) => ReadyStep(w, pid)
    case Route(pid, duration) => RouteStep(w, pid, duration)
    case Publish(pid, evidence, pricing, validityMs, priced, stored, answered) =>
      PublishStep(w, pid, evidence, pricing, validityMs, priced, stored, answered)
    case Throw(pid) => ThrowStep(w, pid)
    case Fail(pid, code, retryable) => FailStep(w, pid, code, retryable)
    case Recheck(pid, authorized) => RecheckStep(w, pid, authorized)
    case Finish(pid) => FinishStep(w, pid)
    case Crash(pid) => Drop(w, pid)
    case Foreign(client, key, operation, resourceType, body) =>
      w.(store := S.ForeignStep(w.store, client, key, operation, resourceType, body))
  }

  ghost function Run(w: World, steps: seq<Step>): World
    decreases |steps|
  {
    if steps == [] then w else Run(Apply(w, steps[0]), steps[1..])
  }

  // ---------------------------------------------------------------- rows of the ledger, by id

  predicate HasRow(l: L.Ledger, id: nat) { L.Find(l.rows, id) < |l.rows| }

  function Row(l: L.Ledger, id: nat): P.Permit
    requires HasRow(l, id)
  {
    l.rows[L.Find(l.rows, id)]
  }

  lemma {:induction false} FindIsUnique(rows: seq<P.Permit>, i: nat)
    requires forall a, b :: 0 <= a < b < |rows| ==> rows[a].id < rows[b].id
    requires i < |rows|
    ensures L.Find(rows, rows[i].id) == i
  {
    if i > 0 { FindIsUnique(rows[1..], i - 1); }
  }

  /** The identity columns never change, nor does a start once written. */
  ghost predicate SamePermit(p: P.Permit, q: P.Permit) {
    && q.id == p.id && q.client == p.client && q.owner == p.owner && q.fingerprint == p.fingerprint
    && (p.start.Start? ==> q.start == p.start)
  }

  ghost predicate RowsKept(l: L.Ledger, m: L.Ledger) {
    forall id :: HasRow(l, id) ==> HasRow(m, id) && SamePermit(Row(l, id), Row(m, id))
  }

  lemma ReplaceKeepsRows(l: L.Ledger, i: nat, p: P.Permit, policy: Option<P.Limits>, now: nat)
    requires i < |l.rows| && SamePermit(l.rows[i], p)
    ensures RowsKept(l, L.Ledger(policy, l.rows[i := p]))
    ensures HasRow(L.Ledger(policy, l.rows[i := p]), p.id)
  {
    var m := L.Ledger(policy, l.rows[i := p]);
    forall id: nat ensures L.Find(m.rows, id) == L.Find(l.rows, id) { FindSameIds(l.rows, m.rows, id); }
    assert m.rows[i].id == p.id;
  }

  lemma {:induction false} FindSameIds(a: seq<P.Permit>, b: seq<P.Permit>, id: nat)
    requires |a| == |b| && forall i :: 0 <= i < |a| ==> a[i].id == b[i].id
    ensures L.Find(a, id) == L.Find(b, id)
  {
    if a != [] { FindSameIds(a[1..], b[1..], id); }
  }

  lemma RecoverKeepsRows(l: L.Ledger, now: nat, batch: nat, policy: Option<P.Limits>)
    ensures RowsKept(l, L.Ledger(policy, L.Recover(l.rows, now, batch)))
  {
    var recovered := L.Recover(l.rows, now, batch);
    L.RecoverRows(l.rows, now, batch);
    forall id: nat ensures L.Find(recovered, id) == L.Find(l.rows, id) { FindSameIds(l.rows, recovered, id); }
  }

  ghost predicate InIdOrder(rows: seq<P.Permit>) {
    forall a, b :: 0 <= a < b < |rows| ==> rows[a].id < rows[b].id
  }

  lemma InsertKeepsRows(l: L.Ledger, p: P.Permit)
    requires InIdOrder(l.rows) && InIdOrder(L.InsertPermit(l.rows, p))
    ensures var m := l.(rows := L.InsertPermit(l.rows, p)); RowsKept(l, m) && HasRow(m, p.id) && Row(m, p.id) == p
  {
    var m := l.(rows := L.InsertPermit(l.rows, p));
    var k := L.Place(l.rows, p.id);
    forall id | HasRow(l, id) ensures HasRow(m, id) && Row(m, id) == Row(l, id) {
      var i := L.Find(l.rows, id);
      var j := if i < k then i else i + 1;
      assert m.rows[j] == l.rows[i];
      FindIsUnique(m.rows, j);
    }
    assert m.rows[k] == p;
    FindIsUnique(m.rows, k);
  }

  lemma AdmitKeepsRows(l: L.Ledger, cfg: L.Config, client: P.Client, owner: nat, id: nat, now: nat)
    requires L.Sound(l, now)
    ensures var (m, r) := L.AdmitStep(l, cfg, client, owner, id, now);
            && RowsKept(l, m)
            && (r.Ok? && r.value.Admitted? ==>
                  && r.value.id == id && !HasRow(l, id) && HasRow(m, id)
                  && Row(m, id) == L.NewPermit(cfg.limits, client, owner, id, now))
  {
    var (m, r) := L.AdmitStep(l, cfg, client, owner, id, now);
    if r.Ok? {
      var recovered := L.Ledger(m.policy, L.Recover(l.rows, now, L.RECOVERY_BATCH));
      RecoverKeepsRows(l, now, L.RECOVERY_BATCH, m.policy);
      if r.value.Admitted? {
        assert l.policy.None? ==> l.rows == [];
        L.RecoverRows(l.rows, now, L.RECOVERY_BATCH);
        L.AdmitKeepsRows(l.rows, cfg.limits, client, owner, id, now);
        L.RecoverKeepsRows(l.rows, cfg.limits, now, L.RECOVERY_BATCH);
        InsertKeepsRows(recovered, L.NewPermit(cfg.limits, client, owner, id, now));
        RowsKeptTwice(l, recovered, m);
      }
    }
  }

  lemma RowsKeptTwice(l: L.Ledger, m: L.Ledger, n: L.Ledger)
    requires RowsKept(l, m) && RowsKept(m, n)
    ensures RowsKept(l, n)
  {
    forall id | HasRow(l, id) ensures HasRow(n, id) && SamePermit(Row(l, id), Row(n, id)) {
      assert HasRow(m, id) && SamePermit(Row(l, id), Row(m, id));
    }
  }

  lemma StartKeepsRows(l: L.Ledger, cfg: L.Config, id: nat, owner: nat, now: nat)
    requires L.Sound(l, now)
    ensures var (m, r) := L.StartStep(l, cfg, id, owner, now);
            && RowsKept(l, m)
            && (r.Ok? ==> HasRow(l, id) && HasRow(m, id) && Row(m, id).start.Start?
                          && Row(m, id).start.startedAt == now && Row(m, id).fingerprint == cfg.limits)
  {
    var (m, r) := L.StartStep(l, cfg, id, owner, now);
    if r.Ok? {
      var i := L.Find(l.rows, id);
      ReplaceKeepsRows(l, i, L.Started(l.rows[i], now), Some(cfg.limits), now);
      FindSameIds(l.rows, m.rows, id);
    }
  }

  lemma FinishKeepsRows(l: L.Ledger, id: nat, owner: nat, report: P.Report, now: nat)
    ensures RowsKept(l, L.FinishStep(l, id, owner, report, now).0)
  {
    var i := L.Find(l.rows, id);
    if i < |l.rows| { ReplaceKeepsRows(l, i, L.Finished(l.rows[i], report, now), l.policy, now); }
  }

  // ---------------------------------------------------------------- the invariant

  predicate HasPermit(p: Proc) { !p.stage.INSPECTED? }

  predicate HasLease(p: Proc) { !p.stage.INSPECTED? && !p.stage.ADMITTED? && !p.stage.CLOSING? }

  predicate Waiting(p: Proc) { p.stage.STARTED? || p.stage.BUDGETED? || p.stage.READY? }

  /** The execution is this lease's and will stay valid until `until`. */
  ghost predicate Holding(s: S.Store, lease: S.Lease, until: nat) {
    && lease.recordId in s.records && lease.recordId.client == lease.client
    && lease.recordId in s.executions
    && var x := s.executions[lease.recordId];
       x.state.PROCESSING? && x.owner == lease.owner && x.version == lease.version && x.leaseExpiresAt == until
  }

  ghost predicate PermitOk(l: L.Ledger, calls: seq<Call>, p: Proc) {
    HasPermit(p) ==>
      && HasRow(l, p.permit)
      && Row(l, p.permit).client == p.client && Row(l, p.permit).owner == p.owner
      && (p.stage.ADMITTED? || p.stage.LEASED? || Waiting(p) ==>
            forall i :: 0 <= i < |calls| ==> calls[i].permit != p.permit)
  }

  ghost predicate LeaseOk(s: S.Store, calls: seq<Call>, p: Proc) {
    HasLease(p) ==>
      && p.lease.recordId == S.RecordId(p.client, p.key) && p.lease.client == p.client
      && p.lease.recordId in s.executions
      && 1 <= p.lease.version <= s.executions[p.lease.recordId].version
      && (p.stage.LEASED? || Waiting(p) ==>
            forall i :: 0 <= i < |calls| ==> calls[i].record == p.lease.recordId ==> calls[i].version != p.lease.version)
  }

  /** What the checks before routing established, and still holds while their result is relied on. */
  ghost predicate TimingOk(l: L.Ledger, s: S.Store, clock: nat, p: Proc) {
    && (Waiting(p) ==>
          && HasRow(l, p.permit) && Row(l, p.permit).start.Start?
          && P.ValidLimits(p.inst.cfg.limits) && Row(l, p.permit).fingerprint == p.inst.cfg.limits)
    && (p.stage.BUDGETED? || p.stage.READY? ==>
          && Row(l, p.permit).start.startedAt <= p.budgetAt <= clock
          && p.budgetAt + P.RoutingProtectionMs(p.inst.cfg.limits) <= p.until)
    && (p.stage.READY? ==> p.budgetAt <= p.readyAt <= clock && p.readyAt < Row(l, p.permit).start.startBy)
    && (p.stage.ROUTING? ==> p.ends < p.until)
    && (p.stage.BUDGETED? || p.stage.READY? || p.stage.ROUTING? ==> Holding(s, p.lease, p.until) || p.until <= clock)
  }

  ghost predicate ProcsOk(w: World) {
    forall pid :: pid in w.procs ==>
      var p := w.procs[pid];
      PermitOk(w.ledger, w.calls, p) && LeaseOk(w.store, w.calls, p) && TimingOk(w.ledger, w.store, w.clock, p)
  }

  /** No two calls in progress share a permit or a lease. */
  ghost predicate Apart(p: Proc, q: Proc) {
    && (HasPermit(p) && HasPermit(q) ==> p.permit != q.permit)
    && (HasLease(p) && HasLease(q) && p.lease.recordId == q.lease.recordId ==> p.lease.version != q.lease.version)
  }

  ghost predicate ProcsApart(procs: map<nat, Proc>) {
    forall a, b :: a in procs && b in procs && a != b ==> Apart(procs[a], procs[b])
  }

  /** A routing call was made on a started permit of its client, and ends before its protection does. */
  ghost predicate CallOk(l: L.Ledger, s: S.Store, c: Call) {
    && HasRow(l, c.permit) && Row(l, c.permit).client == c.client && Row(l, c.permit).start.Start?
    && Row(l, c.permit).start.startedAt <= c.began <= c.ends < Row(l, c.permit).start.protectedUntil
    && c.record in s.executions && 1 <= c.version <= s.executions[c.record].version
  }

  ghost predicate CallsApart(calls: seq<Call>) {
    forall i, j :: 0 <= i < j < |calls| ==>
      && calls[i].permit != calls[j].permit
      && (calls[i].record == calls[j].record ==> calls[i].version != calls[j].version)
  }

  ghost predicate Sound(w: World) {
    && L.Sound(w.ledger, w.clock) && S.Sound(w.store)
    && ProcsOk(w) && ProcsApart(w.procs)
    && (forall i :: 0 <= i < |w.calls| ==> CallOk(w.ledger, w.store, w.calls[i]))
    && CallsApart(w.calls)
  }

  // ---------------------------------------------------------------- frames

  /** The other calls do not notice a ledger step, and a removed or replaced call disturbs nobody. */
  lemma LedgerStep(w: World, ledger: L.Ledger)
    requires Sound(w) && RowsKept(w.ledger, ledger) && L.Sound(ledger, w.clock)
    ensures Sound(w.(ledger := ledger))
  {
    var v := w.(ledger := ledger);
    forall pid | pid in v.procs
      ensures PermitOk(ledger, v.calls, v.procs[pid]) && TimingOk(ledger, v.store, v.clock, v.procs[pid])
    {
      var p := w.procs[pid];
      assert PermitOk(w.ledger, w.calls, p) && TimingOk(w.ledger, w.store, w.clock, p);
      assert HasRow(w.ledger, p.permit) ==> SamePermit(Row(w.ledger, p.permit), Row(ledger, p.permit));
    }
    forall i | 0 <= i < |v.calls| ensures CallOk(ledger, v.store, v.calls[i]) {
      assert CallOk(w.ledger, w.store, w.calls[i]);
      assert SamePermit(Row(w.ledger, w.calls[i].permit), Row(ledger, w.calls[i].permit));
    }
  }

  lemma ClockStep(w: World, to: nat)
    requires Sound(w) && w.clock <= to
    ensures Sound(w.(clock := to))
  {
    L.ClockTick(w.ledger, w.clock, to);
    var v := w.(clock := to);
    forall pid | pid in v.procs ensures TimingOk(v.ledger, v.store, to, v.procs[pid]) {
      assert TimingOk(w.ledger, w.store, w.clock, w.procs[pid]);
    }
  }

  lemma PutStep(w: World, pid: nat, p: Proc)
    requires Sound(w)
    requires PermitOk(w.ledger, w.calls, p) && LeaseOk(w.store, w.calls, p) && TimingOk(w.ledger, w.store, w.clock, p)
    requires forall other :: other in w.procs && other != pid ==> Apart(p, w.procs[other])
    ensures Sound(Put(w, pid, p))
  {
    var v := Put(w, pid, p);
    forall a, b | a in v.procs && b in v.procs && a != b ensures Apart(v.procs[a], v.procs[b]) {}
  }

  /** A call that moves on with the permit and the lease it had stays apart from the others. */
  lemma ApartStays(w: World, pid: nat, q: Proc)
    requires ProcsApart(w.procs) && pid in w.procs && q.permit == w.procs[pid].permit && q.lease == w.procs[pid].lease
    requires (HasPermit(q) ==> HasPermit(w.procs[pid])) && (HasLease(q) ==> HasLease(w.procs[pid]))
    ensures forall other :: other in w.procs && other != pid ==> Apart(q, w.procs[other])
  {
    forall other | other in w.procs && other != pid ensures Apart(q, w.procs[other]) {
      assert Apart(w.procs[pid], w.procs[other]);
    }
  }

  lemma DropStep(w: World, pid: nat)
    requires Sound(w)
    ensures Sound(Drop(w, pid))
  {}

  /** Executions only move forward, and nobody is robbed of a lease that is still good. */
  ghost predicate StoreKept(w: World, store: S.Store) {
    && (forall id :: id in w.store.executions ==>
          id in store.executions && w.store.executions[id].version <= store.executions[id].version)
    && (forall pid :: pid in w.procs ==>
          var p := w.procs[pid];
          HasLease(p) && Holding(w.store, p.lease, p.until) && w.clock < p.until ==> Holding(store, p.lease, p.until))
  }

  lemma ProcKeepsLease(w: World, store: S.Store, pid: nat)
    requires ProcsOk(w) && StoreKept(w, store) && pid in w.procs
    ensures LeaseOk(store, w.calls, w.procs[pid]) && TimingOk(w.ledger, store, w.clock, w.procs[pid])
  {
    var p := w.procs[pid];
    assert LeaseOk(w.store, w.calls, p) && TimingOk(w.ledger, w.store, w.clock, p);
  }

  lemma StoreStep(w: World, store: S.Store)
    requires Sound(w) && S.Sound(store) && StoreKept(w, store)
    ensures Sound(w.(store := store))
  {
    var v := w.(store := store);
    forall pid | pid in v.procs
      ensures LeaseOk(store, v.calls, v.procs[pid]) && TimingOk(v.ledger, store, v.clock, v.procs[pid])
    {
      ProcKeepsLease(w, store, pid);
    }
    forall i | 0 <= i < |v.calls| ensures CallOk(v.ledger, store, v.calls[i]) {
      assert CallOk(w.ledger, w.store, w.calls[i]);
    }
  }

  lemma Replace(w: World, pid: nat, p: Proc)
    ensures Put(Drop(w, pid), pid, p) == Put(w, pid, p)
  {}

  // ---------------------------------------------------------------- one lemma per step

  lemma BeginIsSound(w: World, pid: nat, inst: Instance, client: P.Client, key: string, conditions: S.Conditions)
    requires Sound(w)
    ensures Sound(BeginStep(w, pid, inst, client, key, conditions))
  {
    var v := BeginStep(w, pid, inst, client, key, conditions);
    if v != w { PutStep(w, pid, v.procs[pid]); }
  }

  lemma AdmitIsSound(w: World, pid: nat, owner: nat, permit: nat)
    requires Sound(w)
    ensures Sound(AdmitStep(w, pid, owner, permit))
  {
    if At(w, pid, INSPECTED) {
      var p := w.procs[pid];
      var (ledger, r) := L.AdmitStep(w.ledger, p.inst.cfg, p.client, owner, permit, w.clock);
      var v := Drop(w, pid);
      DropStep(w, pid);
      AdmitKeepsRows(w.ledger, p.inst.cfg, p.client, owner, permit, w.clock);
      L.AdmitIsSafe(w.ledger, p.inst.cfg, p.client, owner, permit, w.clock);
      LedgerStep(v, ledger);
      if r.Ok? && r.value.Admitted? {
        var q := p.(stage := ADMITTED, owner := owner, permit := permit);
        forall i | 0 <= i < |w.calls| ensures w.calls[i].permit != permit {
          assert CallOk(w.ledger, w.store, w.calls[i]);
        }
        forall other | other in v.procs ensures Apart(q, v.procs[other]) {
          assert PermitOk(w.ledger, w.calls, w.procs[other]);
        }
        PutStep(v.(ledger := ledger), pid, q);
        Replace(w.(ledger := ledger), pid, q);
      }
    }
  }

  lemma ReserveKeepsOthers(w: World, client: P.Client, key: string, conditions: S.Conditions, policy: S.LeasePolicy)
    requires Sound(w)
    ensures StoreKept(w, S.ReserveStep(w.store, client, key, conditions, policy, w.clock).0)
  {
    var op := S.ReserveOp(client, key, conditions, policy, w.clock);
    var store := S.Apply(w.store, op);
    forall id | id in w.store.executions
      ensures id in store.executions && w.store.executions[id].version <= store.executions[id].version
    {
      S.StepMovesForward(w.store, op, id);
    }
    forall pid | pid in w.procs
      ensures var p := w.procs[pid];
              HasLease(p) && Holding(w.store, p.lease, p.until) && w.clock < p.until ==> Holding(store, p.lease, p.until)
    {
      var p := w.procs[pid];
      if Holding(w.store, p.lease, p.until) && w.clock < p.until {
        HeldRecordIsLeftAlone(w.store, client, key, conditions, policy, w.clock, p.lease, p.until);
      }
    }
  }

  lemma HeldRecordIsLeftAlone(s: S.Store, client: P.Client, key: string, conditions: S.Conditions,
                              policy: S.LeasePolicy, now: nat, lease: S.Lease, until: nat)
    requires S.Sound(s) && Holding(s, lease, until) && now < until
    ensures Holding(S.ReserveStep(s, client, key, conditions, policy, now).0, lease, until)
  {}

  /** A lease just acquired is newer than every lease held and every call made on its record. */
  lemma NewLeaseIsApart(w: World, pid: nat, id: S.RecordId, version: nat)
    requires Sound(w) && pid in w.procs
    requires id in w.store.executions ==> w.store.executions[id].version < version
    ensures forall i :: 0 <= i < |w.calls| && w.calls[i].record == id ==> w.calls[i].version != version
    ensures forall other :: other in w.procs && HasLease(w.procs[other]) && w.procs[other].lease.recordId == id ==>
              w.procs[other].lease.version != version
  {
    forall i | 0 <= i < |w.calls| && w.calls[i].record == id ensures w.calls[i].version != version {
      assert CallOk(w.ledger, w.store, w.calls[i]);
    }
    forall other | other in w.procs && HasLease(w.procs[other]) && w.procs[other].lease.recordId == id
      ensures w.procs[other].lease.version != version
    {
      assert LeaseOk(w.store, w.calls, w.procs[other]);
    }
  }

  lemma ReserveSettles(w: World, pid: nat, store: S.Store, q: Proc)
    requires Sound(w) && At(w, pid, ADMITTED)
    requires S.Sound(store) && StoreKept(Drop(w, pid), store)
    requires q.stage.LEASED? || q.stage.CLOSING?
    requires q == w.procs[pid].(stage := q.stage, lease := q.lease)
    requires LeaseOk(store, w.calls, q)
    requires q.stage.LEASED? ==>
               forall other :: other in w.procs && HasLease(w.procs[other]) && w.procs[other].lease.recordId == q.lease.recordId ==>
                 w.procs[other].lease.version != q.lease.version
    ensures Sound(Put(w.(store := store), pid, q))
  {
    var p := w.procs[pid];
    assert PermitOk(w.ledger, w.calls, p);
    var v := Drop(w, pid);
    DropStep(w, pid);
    StoreStep(v, store);
    forall other | other in v.procs ensures Apart(q, v.procs[other]) { assert Apart(p, w.procs[other]); }
    PutStep(v.(store := store), pid, q);
    Replace(w.(store := store), pid, q);
  }

  lemma ReserveIsSound(w: World, pid: nat, answered: bool)
    requires Sound(w)
    ensures Sound(ReserveStep(w, pid, answered))
  {
    if At(w, pid, ADMITTED) {
      var p := w.procs[pid];
      var (store, r) := S.ReserveStep(w.store, p.client, p.key, p.conditions, p.inst.lease, w.clock);
      DropStep(w, pid);
      S.ReserveIsSound(w.store, p.client, p.key, p.conditions, p.inst.lease, w.clock);
      ReserveKeepsOthers(Drop(w, pid), p.client, p.key, p.conditions, p.inst.lease);
      if answered && r.Ok? && r.value.Acquired? {
        var lease := r.value.lease;
        S.AcquisitionFences(w.store, p.client, p.key, p.conditions, p.inst.lease, w.clock, lease, w.clock);
        AcquiredLease(w.store, p.client, p.key, p.conditions, p.inst.lease, w.clock);
        NewLeaseIsApart(w, pid, lease.recordId, lease.version);
        ReserveSettles(w, pid, store, p.(stage := LEASED, lease := lease));
      } else {
        ReserveSettles(w, pid, store, p.(stage := CLOSING));
      }
    }
  }

  lemma AcquiredLease(s: S.Store, client: P.Client, key: string, conditions: S.Conditions, policy: S.LeasePolicy, now: nat)
    requires S.Sound(s)
    requires var r := S.ReserveStep(s, client, key, conditions, policy, now).1; r.Ok? && r.value.Acquired?
    ensures var (after, r) := S.ReserveStep(s, client, key, conditions, policy, now);
            var lease := r.value.lease;
            && lease.recordId == S.RecordId(client, key) && lease.client == client
            && lease.recordId in after.executions && 1 <= lease.version == after.executions[lease.recordId].version
  {}

  lemma StartIsSound(w: World, pid: nat)
    requires Sound(w)
    ensures Sound(StartStep(w, pid))
  {
    if At(w, pid, LEASED) {
      var p := w.procs[pid];
      var (ledger, r) := L.StartStep(w.ledger, p.inst.cfg, p.permit, p.owner, w.clock);
      StartKeepsRows(w.ledger, p.inst.cfg, p.permit, p.owner, w.clock);
      L.StartIsSafe(w.ledger, p.inst.cfg, p.permit, p.owner, w.clock);
      assert PermitOk(w.ledger, w.calls, p) && LeaseOk(w.store, w.calls, p);
      LedgerStep(w, ledger);
      var q := p.(stage := if r.Ok? then STARTED else ABORTING);
      ApartStays(w, pid, q);
      PutStep(w.(ledger := ledger), pid, q);
    }
  }

  lemma BudgetIsSound(w: World, pid: nat)
    requires Sound(w)
    ensures Sound(BudgetStep(w, pid))
  {
    if At(w, pid, STARTED) {
      var p := w.procs[pid];
      assert PermitOk(w.ledger, w.calls, p) && LeaseOk(w.store, w.calls, p) && TimingOk(w.ledger, w.store, w.clock, p);
      StartedByNow(w, p.permit);
      var q := BudgetStep(w, pid).procs[pid];
      ApartStays(w, pid, q);
      PutStep(w, pid, q);
    }
  }

  lemma StartedByNow(w: World, permit: nat)
    requires L.Sound(w.ledger, w.clock) && HasRow(w.ledger, permit)
    ensures w.ledger.policy.Some? && L.RowSound(Row(w.ledger, permit), w.ledger.policy.value, w.clock)
  {}

  lemma ReadyIsSound(w: World, pid: nat)
    requires Sound(w)
    ensures Sound(ReadyStep(w, pid))
  {
    if At(w, pid, BUDGETED) {
      var p := w.procs[pid];
      assert PermitOk(w.ledger, w.calls, p) && LeaseOk(w.store, w.calls, p) && TimingOk(w.ledger, w.store, w.clock, p);
      var q := ReadyStep(w, pid).procs[pid];
      ApartStays(w, pid, q);
      PutStep(w, pid, q);
    }
  }

  /** The heart of the timing: a route begun in time ends before the slot and before the lease do. */
  lemma RouteEndsInTime(c: P.Limits, startedAt: nat, budgetAt: nat, readyAt: nat, began: nat, duration: nat, until: nat)
    requires P.ValidLimits(c) && startedAt <= budgetAt <= readyAt < startedAt + L.START_GRACE_MS
    requires readyAt <= began <= readyAt + ROUTING_SLACK_MS
    requires duration <= P.Schedule(c.timeoutMs, 0, c.retries)
    requires budgetAt + P.RoutingProtectionMs(c) <= until
    ensures began + duration < startedAt + P.RoutingProtectionMs(c)
    ensures began + duration < until
  {
    P.ProtectionCoversSchedule(c);
  }

  lemma RouteIsSound(w: World, pid: nat, duration: nat)
    requires Sound(w)
    ensures Sound(RouteStep(w, pid, duration))
  {
    var v := RouteStep(w, pid, duration);
    if v != w {
      var p := w.procs[pid];
      assert PermitOk(w.ledger, w.calls, p) && LeaseOk(w.store, w.calls, p) && TimingOk(w.ledger, w.store, w.clock, p);
      StartedByNow(w, p.permit);
      var row := Row(w.ledger, p.permit);
      RouteEndsInTime(p.inst.cfg.limits, row.start.startedAt, p.budgetAt, p.readyAt, w.clock, duration, p.until);
      var call := v.calls[|w.calls|];
      var q := v.procs[pid];
      CallStep(Drop(w, pid), call, p);
      ApartStays(w, pid, q);
      PutStep(Drop(w, pid).(calls := v.calls), pid, q);
      Replace(w.(calls := v.calls), pid, q);
    }
  }

  /** Recording a call on a permit and a lease that nobody else has, and no earlier call used. */
  lemma CallStep(w: World, call: Call, p: Proc)
    requires Sound(w) && CallOk(w.ledger, w.store, call)
    requires call.permit == p.permit && call.record == p.lease.recordId && call.version == p.lease.version
    requires HasPermit(p) && HasLease(p)
    requires forall pid :: pid in w.procs ==> Apart(p, w.procs[pid])
    requires forall i :: 0 <= i < |w.calls| ==>
               && w.calls[i].permit != p.permit
               && (w.calls[i].record == p.lease.recordId ==> w.calls[i].version != p.lease.version)
    ensures Sound(w.(calls := w.calls + [call]))
  {
    var v := w.(calls := w.calls + [call]);
    forall pid | pid in v.procs
      ensures PermitOk(v.ledger, v.calls, v.procs[pid]) && LeaseOk(v.store, v.calls, v.procs[pid])
    {
      assert PermitOk(w.ledger, w.calls, w.procs[pid]) && LeaseOk(w.store, w.calls, w.procs[pid]);
      assert Apart(p, w.procs[pid]);
    }
  }

  lemma PublishIsSound(w: World, pid: nat, evidence: S.Evidence, pricing: S.Pricing, validityMs: int,
                       priced: nat, stored: nat, answered: bool)
    requires Sound(w)
    ensures Sound(PublishStep(w, pid, evidence, pricing, validityMs, priced, stored, answered))
  {
    var after := PublishStep(w, pid, evidence, pricing, validityMs, priced, stored, answered);
    if At(w, pid, ROUTING) && w.clock >= w.procs[pid].ends && w.clock <= priced <= stored {
      var p := w.procs[pid];
      var op := S.PublishOp(p.lease, p.conditions, evidence, pricing, validityMs, w.clock, priced, stored);
      var store := S.Apply(w.store, op);
      S.StepIsSound(w.store, op);
      WriteKeepsOthers(w, pid, op, store);
      FinalWrite(w, pid, store, stored, after.procs[pid]);
    }
  }

  /** A write through the fence touches only its own execution, which nobody else holds. */
  lemma WriteKeepsOthers(w: World, pid: nat, op: S.Op, store: S.Store)
    requires Sound(w) && pid in w.procs && HasLease(w.procs[pid])
    requires op.PublishOp? || op.FailOp?
    requires op.lease == w.procs[pid].lease && store == S.Apply(w.store, op) && op.now == w.clock
    ensures StoreKept(Drop(w, pid), store)
  {
    var p := w.procs[pid];
    forall id | id in w.store.executions
      ensures id in store.executions && w.store.executions[id].version <= store.executions[id].version
    {
      S.StepMovesForward(w.store, op, id);
    }
    forall other | other in w.procs && other != pid
      ensures var q := w.procs[other];
              HasLease(q) && Holding(w.store, q.lease, q.until) && w.clock < q.until ==> Holding(store, q.lease, q.until)
    {
      assert Apart(p, w.procs[other]);
    }
  }

  lemma WriteWithout(w: World, pid: nat, store: S.Store, later: nat)
    requires Sound(w) && w.clock <= later && S.Sound(store) && StoreKept(Drop(w, pid), store)
    ensures Sound(Drop(w, pid).(store := store, clock := later))
  {
    DropStep(w, pid);
    StoreStep(Drop(w, pid), store);
    ClockStep(Drop(w, pid).(store := store), later);
  }

  /** The last durable write of a call: its stage moves on to ABORTING or CLOSING. */
  lemma FinalWrite(w: World, pid: nat, store: S.Store, later: nat, q: Proc)
    requires Sound(w) && pid in w.procs && HasLease(w.procs[pid]) && w.clock <= later
    requires S.Sound(store) && StoreKept(Drop(w, pid), store)
    requires q.stage.ABORTING? || q.stage.CLOSING?
    requires q == w.procs[pid].(stage := q.stage, report := q.report)
    ensures Sound(Put(w.(store := store, clock := later), pid, q))
  {
    var p := w.procs[pid];
    assert PermitOk(w.ledger, w.calls, p) && LeaseOk(w.store, w.calls, p);
    WriteWithout(w, pid, store, later);
    ApartStays(w, pid, q);
    PutStep(Drop(w, pid).(store := store, clock := later), pid, q);
    Replace(w.(store := store, clock := later), pid, q);
  }

  lemma ThrowIsSound(w: World, pid: nat)
    requires Sound(w)
    ensures Sound(ThrowStep(w, pid))
  {
    if pid in w.procs && ThrowStep(w, pid) != w {
      var p := w.procs[pid];
      assert PermitOk(w.ledger, w.calls, p) && LeaseOk(w.store, w.calls, p);
      var q := ThrowStep(w, pid).procs[pid];
      ApartStays(w, pid, q);
      PutStep(w, pid, q);
    }
  }

  lemma FailIsSound(w: World, pid: nat, code: string, retryable: bool)
    requires Sound(w)
    ensures Sound(FailStep(w, pid, code, retryable))
  {
    if At(w, pid, ABORTING) {
      var p := w.procs[pid];
      var op := S.FailOp(p.lease, code, retryable, w.clock);
      S.StepIsSound(w.store, op);
      WriteKeepsOthers(w, pid, op, S.Apply(w.store, op));
      FinalWrite(w, pid, S.Apply(w.store, op), w.clock, p.(stage := CLOSING));
    }
  }

  lemma RecheckIsSound(w: World, pid: nat, authorized: bool)
    requires Sound(w)
    ensures Sound(RecheckStep(w, pid, authorized))
  {
    if At(w, pid, CLOSING) && RecheckStep(w, pid, authorized) != w {
      var p := w.procs[pid];
      assert PermitOk(w.ledger, w.calls, p);
      var q := RecheckStep(w, pid, authorized).procs[pid];
      ApartStays(w, pid, q);
      PutStep(w, pid, q);
    }
  }

  lemma FinishIsSound(w: World, pid: nat)
    requires Sound(w)
    ensures Sound(FinishStep(w, pid))
  {
    if At(w, pid, CLOSING) {
      var p := w.procs[pid];
      var ledger := L.FinishStep(w.ledger, p.permit, p.owner, p.report, w.clock).0;
      FinishKeepsRows(w.ledger, p.permit, p.owner, p.report, w.clock);
      L.FinishIsSafe(w.ledger, p.permit, p.owner, p.report, w.clock);
      LedgerStep(w, ledger);
      DropStep(w.(ledger := ledger), pid);
    }
  }

  lemma ForeignKeepsOthers(w: World, client: P.Client, key: string, operation: string, resourceType: string, body: nat)
    ensures StoreKept(w, S.ForeignStep(w.store, client, key, operation, resourceType, body))
  {
    var store := S.ForeignStep(w.store, client, key, operation, resourceType, body);
    assert store.executions == w.store.executions;
    assert forall id :: id in w.store.records ==> id in store.records;
  }

  lemma ForeignIsSound(w: World, client: P.Client, key: string, operation: string, resourceType: string, body: nat)
    requires Sound(w)
    ensures Sound(w.(store := S.ForeignStep(w.store, client, key, operation, resourceType, body)))
  {
    S.ForeignIsSound(w.store, client, key, operation, resourceType, body);
    ForeignKeepsOthers(w, client, key, operation, resourceType, body);
    StoreStep(w, S.ForeignStep(w.store, client, key, operation, resourceType, body));
  }

  /** The steps up to readiness. */
  lemma EarlyStepIsSound(w: World, step: Step)
    requires Sound(w)
    requires step.Begin? || step.Admit? || step.Reserve? || step.StartPermit? || step.RequireBudget? || step.AssertReady?
    ensures Sound(Apply(w, step))
  {
    match step
    case Begin(pid, inst, client, key, conditions) => BeginIsSound(w, pid, inst, client, key, conditions);
    case Admit(pid, owner, permit) => AdmitIsSound(w, pid, owner, permit);
    case Reserve(pid, answered) => ReserveIsSound(w, pid, answered);
    case StartPermit(pid) => StartIsSound(w, pid);
    case RequireBudget(pid) => BudgetIsSound(w, pid);
    case AssertReady(pid) => ReadyIsSound(w, pid);
  }

  /** Routing, publication and how a call ends. */
  lemma LateStepIsSound(w: World, step: Step)
    requires Sound(w)
    requires step.Route? || step.Publish? || step.Throw? || step.Fail? || step.Recheck? || step.Finish?
    ensures Sound(Apply(w, step))
  {
    match step
    case Route(pid, duration) => RouteIsSound(w, pid, duration);
    case Publish(pid, evidence, pricing, validityMs, priced, stored, answered) =>
      PublishIsSound(w, pid, evidence, pricing, validityMs, priced, stored, answered);
    case Throw(pid) => ThrowIsSound(w, pid);
    case Fail(pid, code, retryable) => FailIsSound(w, pid, code, retryable);
    case Recheck(pid, authorized) => RecheckIsSound(w, pid, authorized);
    case Finish(pid) => FinishIsSound(w, pid);
  }

  lemma StepIsSound(w: World, step: Step)
    requires Sound(w)
    ensures Sound(Apply(w, step))
  {
    if step.Tick? { if w.clock <= step.to { ClockStep(w, step.to); } }
    else if step.Crash? { DropStep(w, step.pid); }
    else if step.Foreign? { ForeignIsSound(w, step.client, step.key, step.operation, step.resourceType, step.body); }
    else if step.Route? || step.Publish? || step.Throw? || step.Fail? || step.Recheck? || step.Finish? { LateStepIsSound(w, step); }
    else { EarlyStepIsSound(w, step); }
  }

  lemma {:induction false} RunIsSound(w: World, steps: seq<Step>)
    requires Sound(w)
    ensures Sound(Run(w, steps))
    decreases |steps|
  {
    if steps != [] {
      StepIsSound(w, steps[0]);
      RunIsSound(Apply(w, steps[0]), steps[1..]);
    }
  }

  // ---------------------------------------------------------------- what it comes to

  /** Routing calls of one integration in flight at instant t. */
  function InFlight(calls: seq<Call>, client: P.Client, t: nat): nat {
    if calls == [] then 0
    else (if calls[0].client == client && calls[0].began <= t <= calls[0].ends then 1 else 0)
         + InFlight(calls[1..], client, t)
  }

  /** Routing calls made for one idempotency record. */
  function CallsFor(calls: seq<Call>, id: S.RecordId): nat {
    if calls == [] then 0 else (if calls[0].record == id then 1 else 0) + CallsFor(calls[1..], id)
  }

  function SlotHolders(rows: seq<P.Permit>, client: P.Client, t: nat): set<nat> {
    set i | 0 <= i < |rows| && rows[i].client == client && L.InWindow(rows[i], P.Slots, t) :: rows[i].id
  }

  lemma {:induction false} HoldersAreConsumed(rows: seq<P.Permit>, client: P.Client, t: nat)
    ensures |SlotHolders(rows, client, t)| <= L.Consumed(rows, client, P.Slots, t)
  {
    if rows != [] {
      HoldersAreConsumed(rows[1..], client, t);
      var here := if rows[0].client == client && L.InWindow(rows[0], P.Slots, t) then {rows[0].id} else {};
      assert SlotHolders(rows, client, t) == here + SlotHolders(rows[1..], client, t);
    }
  }

  lemma {:induction false} InFlightFitsIn(calls: seq<Call>, client: P.Client, t: nat, holders: set<nat>)
    requires CallsApart(calls)
    requires forall i :: 0 <= i < |calls| ==>
               calls[i].client == client && calls[i].began <= t <= calls[i].ends ==> calls[i].permit in holders
    ensures InFlight(calls, client, t) <= |holders|
  {
    if calls != [] {
      InFlightFitsIn(calls[1..], client, t, if calls[0].client == client && calls[0].began <= t <= calls[0].ends
                                            then holders - {calls[0].permit} else holders);
    }
  }

  /**
   * Whatever the interleaving, whoever crashes and however many backends run: at every instant the
   * routing calls one integration has in flight are at most its concurrent limit.
   */
  lemma RoutingStaysWithinSlots(steps: seq<Step>, client: P.Client, t: nat)
    requires Run(START, steps).calls != []
    ensures var w := Run(START, steps);
            w.ledger.policy.Some? && InFlight(w.calls, client, t) <= w.ledger.policy.value.concurrent
  {
    RunIsSound(START, steps);
    var w := Run(START, steps);
    assert CallOk(w.ledger, w.store, w.calls[0]);
    StartedByNow(w, w.calls[0].permit);
    var holders := SlotHolders(w.ledger.rows, client, t);
    forall i | 0 <= i < |w.calls| && w.calls[i].client == client && w.calls[i].began <= t <= w.calls[i].ends
      ensures w.calls[i].permit in holders
    {
      assert CallOk(w.ledger, w.store, w.calls[i]);
      var row := Row(w.ledger, w.calls[i].permit);
      assert L.InWindow(row, P.Slots, t);
    }
    InFlightFitsIn(w.calls, client, t, holders);
    HoldersAreConsumed(w.ledger.rows, client, t);
    L.SoundBounds(w.ledger, w.clock, client, P.Slots, t);
  }

  /** When routing returns, and for as long as it has not, the call still owns its lease. */
  lemma LeaseOutlivesRouting(steps: seq<Step>, pid: nat)
    requires At(Run(START, steps), pid, ROUTING)
    requires Run(START, steps).clock <= Run(START, steps).procs[pid].ends
    ensures var w := Run(START, steps); S.Owned(w.store, w.procs[pid].lease, w.clock)
  {
    RunIsSound(START, steps);
    var w := Run(START, steps);
    assert TimingOk(w.ledger, w.store, w.clock, w.procs[pid]);
  }

  lemma {:induction false} CallsFitIn(calls: seq<Call>, id: S.RecordId, versions: set<nat>)
    requires CallsApart(calls)
    requires forall i :: 0 <= i < |calls| ==> calls[i].record == id ==> calls[i].version in versions
    ensures CallsFor(calls, id) <= |versions|
  {
    if calls != [] {
      CallsFitIn(calls[1..], id, if calls[0].record == id then versions - {calls[0].version} else versions);
    }
  }

  function Versions(n: nat): (vs: set<nat>)
    ensures |vs| == n && forall v: nat :: v in vs <==> 1 <= v <= n
  {
    if n == 0 then {} else Versions(n - 1) + {n}
  }

  /**
   * One key makes at most maxAttempts routing calls, over its whole life, and no two calls of
   * anybody were made on the same permit, nor any on a permit that was not started.
   */
  lemma CallsPerKeyAreBounded(steps: seq<Step>, id: S.RecordId)
    requires id in Run(START, steps).store.executions
    ensures var w := Run(START, steps);
            && CallsFor(w.calls, id) <= w.store.executions[id].attempts <= w.store.executions[id].maxAttempts <= 5
            && (forall i :: 0 <= i < |w.calls| ==>
                  HasRow(w.ledger, w.calls[i].permit) && Row(w.ledger, w.calls[i].permit).start.Start?)
            && (forall i, j :: 0 <= i < j < |w.calls| ==> w.calls[i].permit != w.calls[j].permit)
  {
    RunIsSound(START, steps);
    var w := Run(START, steps);
    var x := w.store.executions[id];
    forall i | 0 <= i < |w.calls|
      ensures HasRow(w.ledger, w.calls[i].permit) && Row(w.ledger, w.calls[i].permit).start.Start?
      ensures w.calls[i].record == id ==> 1 <= w.calls[i].version <= x.version
    {
      assert CallOk(w.ledger, w.store, w.calls[i]);
    }
    CallsFitIn(w.calls, id, Versions(x.version));
  }

  // ---------------------------------------------------------------- lost answers

  /** The offer published for a request, as everybody who asks for it finds it. */
  predicate Offered(s: S.Store, client: P.Client, key: string, conditions: S.Conditions, q: S.Prequote) {
    var id := S.RecordId(client, key);
    && id in s.records && S.SameRequest(s.records[id], conditions)
    && id in s.executions && s.executions[id].state.SUCCEEDED?
    && s.records[id].resourceId in s.prequotes && s.prequotes[s.records[id].resourceId] == q
  }

  lemma OperationKeepsOffers(s: S.Store, op: S.Op, client: P.Client, key: string, conditions: S.Conditions, q: S.Prequote)
    requires S.Sound(s) && Offered(s, client, key, conditions, q)
    ensures Offered(S.Apply(s, op), client, key, conditions, q)
  {
    S.StepMovesForward(s, op, S.RecordId(client, key));
  }

  /** What a step does to the store is one of the store's own operations. */
  function OperationOf(w: World, step: Step): Option<S.Op> {
    match step
    case Reserve(pid, _) =>
      if !At(w, pid, ADMITTED) then None
      else var p := w.procs[pid]; Some(S.ReserveOp(p.client, p.key, p.conditions, p.inst.lease, w.clock))
    case Publish(pid, evidence, pricing, validityMs, priced, stored, _) =>
      if !At(w, pid, ROUTING) || w.clock < w.procs[pid].ends || !(w.clock <= priced <= stored) then None
      else
        var p := w.procs[pid];
        Some(S.PublishOp(p.lease, p.conditions, evidence, pricing, validityMs, w.clock, priced, stored))
    case Fail(pid, code, retryable) =>
      if !At(w, pid, ABORTING) then None else Some(S.FailOp(w.procs[pid].lease, code, retryable, w.clock))
    case Foreign(client, key, operation, resourceType, body) => Some(S.ForeignOp(client, key, operation, resourceType, body))
    case _ => None
  }

  lemma OnlyOperationsWrite(w: World, step: Step)
    ensures var op := OperationOf(w, step);
            Apply(w, step).store == if op.Some? then S.Apply(w.store, op.value) else w.store
  {}

  lemma StepKeepsOffers(w: World, step: Step, client: P.Client, key: string, conditions: S.Conditions, q: S.Prequote)
    requires Sound(w) && Offered(w.store, client, key, conditions, q)
    ensures Offered(Apply(w, step).store, client, key, conditions, q)
  {
    OnlyOperationsWrite(w, step);
    var op := OperationOf(w, step);
    if op.Some? { OperationKeepsOffers(w.store, op.value, client, key, conditions, q); }
  }

  lemma {:induction false} RunKeepsOffers(w: World, steps: seq<Step>, client: P.Client, key: string, conditions: S.Conditions, q: S.Prequote)
    requires Sound(w) && Offered(w.store, client, key, conditions, q)
    ensures Offered(Run(w, steps).store, client, key, conditions, q)
    decreases |steps|
  {
    if steps != [] {
      StepKeepsOffers(w, steps[0], client, key, conditions, q);
      StepIsSound(w, steps[0]);
      RunKeepsOffers(Apply(w, steps[0]), steps[1..], client, key, conditions, q);
    }
  }

  lemma PublishedIsOffered(s: S.Store, lease: S.Lease, key: string, conditions: S.Conditions, evidence: S.Evidence,
                           pricing: S.Pricing, validityMs: int, now: nat, priced: nat, stored: nat)
    requires S.Sound(s) && lease.recordId == S.RecordId(lease.client, key)
    requires S.PublishStep(s, lease, conditions, evidence, pricing, validityMs, now, priced, stored).1.Ok?
    ensures var (after, r) := S.PublishStep(s, lease, conditions, evidence, pricing, validityMs, now, priced, stored);
            Offered(after, lease.client, key, conditions, r.value)
  {}

  /** Once an offer is published, nothing can be failed under any lease of its record, and a look finds it. */
  lemma OfferedIsSettled(s: S.Store, client: P.Client, key: string, conditions: S.Conditions, q: S.Prequote,
                         lease: S.Lease, code: string, retryable: bool, now: nat)
    requires Offered(s, client, key, conditions, q) && lease.recordId == S.RecordId(client, key)
    ensures S.FailStep(s, lease, code, retryable, now).0 == s && S.FailStep(s, lease, code, retryable, now).1.Err?
    ensures S.InspectStep(s, client, key, conditions, now) == Ok(S.Succeeded(q))
  {}

  /**
   * A publication whose answer is lost is not lost: whatever happens next, recording a failure under its
   * lease writes nothing, looking once more finds the very offer it wrote, and a call of that request
   * that closes then reports it published.
   */
  lemma LostPublicationIsFound(steps: seq<Step>, pid: nat, publish: Step, more: seq<Step>, lease: S.Lease,
                               code: string, retryable: bool, later: nat)
    requires var w := Run(START, steps); Publishes(w, pid, publish) && lease.recordId == w.procs[pid].lease.recordId
    ensures var w := Run(START, steps);
            var p, end := w.procs[pid], Run(Apply(w, publish), more);
            && Apply(w, publish).procs[pid] == p.(stage := ABORTING)
            && S.FailStep(end.store, lease, code, retryable, later).0 == end.store
            && S.FailStep(end.store, lease, code, retryable, later).1.Err?
            && S.InspectStep(end.store, p.client, p.key, p.conditions, later) == Ok(S.Succeeded(Published(w, publish)))
            && (At(end, pid, CLOSING) && SameCall(p, end.procs[pid]) ==> RecheckStep(end, pid, true).procs[pid].report.published)
  {
    RunIsSound(START, steps);
    var w := Run(START, steps);
    var p, q := w.procs[pid], Published(w, publish);
    var lost := Apply(w, publish);
    LostIsOffered(w, pid, publish);
    StepIsSound(w, publish);
    RunKeepsOffers(lost, more, p.client, p.key, p.conditions, q);
    var end := Run(lost, more);
    OfferedIsSettled(end.store, p.client, p.key, p.conditions, q, lease, code, retryable, later);
    if At(end, pid, CLOSING) && SameCall(p, end.procs[pid]) { RecheckReports(end, pid, q); }
  }

  lemma RecheckReports(w: World, pid: nat, q: S.Prequote)
    requires At(w, pid, CLOSING)
    requires var p := w.procs[pid]; Offered(w.store, p.client, p.key, p.conditions, q)
    ensures pid in RecheckStep(w, pid, true).procs && RecheckStep(w, pid, true).procs[pid].report.published
  {
    var p := w.procs[pid];
    OfferedIsSettled(w.store, p.client, p.key, p.conditions, q, p.lease.(recordId := S.RecordId(p.client, p.key)), "", false, w.clock);
  }

  /** A call whose route has returned publishes its offer, and does not hear of it. */
  ghost predicate Publishes(w: World, pid: nat, publish: Step) {
    && publish.Publish? && publish.pid == pid && !publish.answered
    && At(w, pid, ROUTING) && w.procs[pid].ends <= w.clock <= publish.priced <= publish.stored
    && Publication(w, publish).Ok?
  }

  function Publication(w: World, publish: Step): Result<S.Prequote, S.Error>
    requires publish.Publish? && publish.pid in w.procs
  {
    var p := w.procs[publish.pid];
    S.PublishStep(w.store, p.lease, p.conditions, publish.evidence, publish.pricing, publish.validityMs,
                  w.clock, publish.priced, publish.stored).1
  }

  function Published(w: World, publish: Step): S.Prequote
    requires publish.Publish? && publish.pid in w.procs && Publication(w, publish).Ok?
  {
    Publication(w, publish).value
  }

  lemma LostIsOffered(w: World, pid: nat, publish: Step)
    requires Sound(w) && Publishes(w, pid, publish)
    ensures var p, lost := w.procs[pid], Apply(w, publish);
            && pid in lost.procs && lost.procs[pid] == p.(stage := ABORTING)
            && p.lease.recordId == S.RecordId(p.client, p.key)
            && Offered(lost.store, p.client, p.key, p.conditions, Published(w, publish))
  {
    var p := w.procs[pid];
    assert LeaseOk(w.store, w.calls, p);
    PublishedIsOffered(w.store, p.lease, p.key, p.conditions, publish.evidence, publish.pricing, publish.validityMs,
                       w.clock, publish.priced, publish.stored);
  }

  predicate SameCall(p: Proc, q: Proc) { q.client == p.client && q.key == p.key && q.conditions == p.conditions }
}
