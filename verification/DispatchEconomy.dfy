/**
 * What winning and losing a dispatch costs. A dispatch is opened with its costs frozen per kind of
 * actor; the step that wins it charges the winner's account, the step that gives it back or cancels it
 * refunds that charge, and delivering it moves nothing. Each step is one transaction holding the
 * dispatch row (and the request row for a cancellation): whatever fails inside it rolls back whole.
 *
 * An independent driver has one profile and a profile one driver, so the driver stands for the profile.
 * Who is eligible, which vehicle is used and whether documents are in order are answers given to a step.
 */
module DispatchEconomy {
  import opened Common
  import opened CreditLedger
  import opened DispatchPolicy

  /** An award made before charging existed, recorded by the migration with the time of its claim. */
  datatype Exemption = Exemption(owner: Owner, awardedAt: nat)

  datatype Dispatch = Dispatch(
    request: nat, status: Status, window: Window, openToIndependents: bool,
    holder: Holder, claimedAt: Option<nat>, monetized: bool, exemptions: set<Exemption>,
    snapshots: map<ActorType, Credits>, candidates: map<nat, CandidateStatus>,
    active: Option<nat>, cancelledDrivers: set<nat>)

  datatype Economy = Economy(
    clock: nat, ledger: Ledger, profiles: set<nat>, cancelledRequests: set<nat>, dispatches: map<nat, Dispatch>)

  const START := Economy(0, CreditLedger.EMPTY, {}, {}, map[])

  datatype Error =
    | NOT_FOUND | Rejected(rejection: RejectionCode) | PROVIDER_NOT_ELIGIBLE | INDEPENDENT_NOT_ELIGIBLE
    | DISPATCH_NOT_CLAIMED_BY_PROVIDER | DISPATCH_NOT_CLAIMED_BY_DRIVER | DISPATCH_HAS_ACTIVE_ASSIGNMENT
    | NO_ACTIVE_ASSIGNMENT | Economic(code: CreditError)

  datatype Answer = Done | Unchanged
  type Outcome = Result<Answer, Error>

  // ---------------------------------------------------------------- policy

  function OwnerOf(h: Holder): Owner
    requires !h.Nobody?
  {
    match h
    case Provider(p) => Owner(PROVIDER, p)
    case Driver(dr) => Owner(INDEPENDENT_DRIVER, dr)
  }

  /** Which side of the introduction of charging an actor's current award is on. */
  function EnforcementMode(d: Dispatch, actor: Owner): Boundary {
    if !d.monetized then LEGACY
    else if d.claimedAt.Some? && Exemption(actor, d.claimedAt.value) in d.exemptions then PRE_ENFORCEMENT_AWARD
    else ENFORCED
  }

  function SnapshotFor(d: Dispatch, actorType: ActorType): Option<Credits> {
    if actorType in d.snapshots then Some(d.snapshots[actorType]) else None
  }

  // ---------------------------------------------------------------- steps

  function Write(e: Economy, id: nat, d: Dispatch, ledger: Ledger): Economy {
    e.(dispatches := e.dispatches[id := d], ledger := ledger)
  }

  /** The winning update and its charge, or neither. */
  function Win(e: Economy, id: nat, d: Dispatch, owner: Owner): (Economy, Outcome) {
    var (ledger, charged) := ChargeStep(e.ledger, d.monetized, SnapshotFor(d, owner.actorType), owner, id);
    if charged.Err? then (e, Err(Economic(charged.error))) else (Write(e, id, d, ledger), Ok(Done))
  }

  function ClaimedBy(d: Dispatch, provider: nat, now: nat): Dispatch {
    d.(status := CLAIMED, holder := Provider(provider), claimedAt := Some(now),
       candidates := d.candidates[provider := Claimed])
  }

  function ClaimStep(e: Economy, id: nat, provider: nat, eligible: bool): (Economy, Outcome) {
    if id !in e.dispatches || provider !in e.dispatches[id].candidates then (e, Err(NOT_FOUND))
    else
      var d := e.dispatches[id];
      match ClaimRejection(d.status, d.window, d.holder, d.candidates[provider], provider, e.clock)
      case AlreadyOwner => (e, Ok(Unchanged))
      case Refused(code) =>
        if code.DISPATCH_EXPIRED? && d.status.OPEN?
        then (Write(e, id, d.(status := EXPIRED), e.ledger), Err(Rejected(code)))
        else (e, Err(Rejected(code)))
      case Proceed =>
        if !eligible then (e, Err(PROVIDER_NOT_ELIGIBLE))
        else Win(e, id, ClaimedBy(d, provider, e.clock), Owner(PROVIDER, provider))
  }

  function TakenBy(d: Dispatch, driver: nat, now: nat): Dispatch {
    d.(status := CLAIMED, holder := Driver(driver), claimedAt := Some(now), active := Some(driver))
  }

  function TakeStep(e: Economy, id: nat, driver: nat, eligible: bool): (Economy, Outcome) {
    if driver !in e.profiles then (e, Err(INDEPENDENT_NOT_ELIGIBLE))
    else if id !in e.dispatches then (e, Err(NOT_FOUND))
    else
      var d := e.dispatches[id];
      match TakeRejection(d.status, d.window, d.openToIndependents, driver in d.cancelledDrivers, e.clock)
      case Refused(code) =>
        if code.DISPATCH_EXPIRED? && d.status.OPEN?
        then (Write(e, id, d.(status := EXPIRED), e.ledger), Err(Rejected(code)))
        else (e, Err(Rejected(code)))
      case _ =>
        if !eligible then (e, Err(INDEPENDENT_NOT_ELIGIBLE))
        else Win(e, id, TakenBy(d, driver, e.clock), Owner(INDEPENDENT_DRIVER, driver))
  }

  /** The refund is judged on the dispatch as it was before `after` cleared or closed it. */
  function Reverse(e: Economy, id: nat, d: Dispatch, after: Dispatch, owner: Owner): (Economy, Outcome) {
    var (ledger, refunded) := RefundStep(e.ledger, EnforcementMode(d, owner), owner, id);
    if refunded.Err? then (e, Err(Economic(refunded.error))) else (Write(e, id, after, ledger), Ok(Done))
  }

  function Reopened(d: Dispatch, now: nat): Dispatch {
    d.(status := if now >= d.window.expiresAt then EXPIRED else OPEN, holder := Nobody, claimedAt := None)
  }

  function ReleaseStep(e: Economy, id: nat, provider: nat): (Economy, Outcome) {
    if id !in e.dispatches || provider !in e.dispatches[id].candidates then (e, Err(NOT_FOUND))
    else
      var d := e.dispatches[id];
      if !d.status.CLAIMED? || d.holder != Provider(provider) then (e, Err(DISPATCH_NOT_CLAIMED_BY_PROVIDER))
      else if d.active.Some? then (e, Err(DISPATCH_HAS_ACTIVE_ASSIGNMENT))
      else
        Reverse(e, id, d, Reopened(d, e.clock).(candidates := d.candidates[provider := Released]), Owner(PROVIDER, provider))
  }

  function WithoutActive(d: Dispatch): Dispatch {
    if d.active.None? then d
    else d.(active := None, cancelledDrivers := d.cancelledDrivers + {d.active.value})
  }

  function GiveBackStep(e: Economy, id: nat, driver: nat): (Economy, Outcome) {
    if driver !in e.profiles then (e, Err(INDEPENDENT_NOT_ELIGIBLE))
    else if id !in e.dispatches then (e, Err(NOT_FOUND))
    else
      var d := e.dispatches[id];
      if !d.status.CLAIMED? || d.holder != Driver(driver) then (e, Err(DISPATCH_NOT_CLAIMED_BY_DRIVER))
      else Reverse(e, id, d, Reopened(WithoutActive(d), e.clock), Owner(INDEPENDENT_DRIVER, driver))
  }

  function Closed(d: Dispatch, now: nat): Dispatch {
    WithoutActive(d).(status := if EffectiveStatus(d.status, d.window, now).EXPIRED? then EXPIRED else CANCELLED)
  }

  /** One dispatch of a request being cancelled: its owner, if any, stays as history and is refunded. */
  function CloseOne(e: Economy, id: nat): (Economy, Outcome)
    requires id in e.dispatches
  {
    var d := e.dispatches[id];
    if d.holder.Nobody? || (d.holder.Driver? && d.holder.driver !in e.profiles)
    then (Write(e, id, Closed(d, e.clock), e.ledger), Ok(Done))
    else Reverse(e, id, d, Closed(d, e.clock), OwnerOf(d.holder))
  }

  function CloseAll(e: Economy, rows: seq<nat>): (Economy, Outcome)
    decreases |rows|
  {
    if rows == [] then (e, Ok(Done))
    else if rows[0] !in e.dispatches || !Operational(e.dispatches[rows[0]].status) then (e, Err(NOT_FOUND))
    else
      var (next, closed) := CloseOne(e, rows[0]);
      if closed.Err? then (e, closed) else CloseAll(next, rows[1..])
  }

  /** The rows the cancellation locks: every operational dispatch of the request, each once. */
  predicate RowsOf(e: Economy, request: nat, rows: seq<nat>) {
    && (forall i, j :: 0 <= i < j < |rows| ==> rows[i] != rows[j])
    && (forall i :: 0 <= i < |rows| ==>
          rows[i] in e.dispatches && e.dispatches[rows[i]].request == request && Operational(e.dispatches[rows[i]].status))
    && (forall id :: id in e.dispatches && e.dispatches[id].request == request && Operational(e.dispatches[id].status) ==> id in rows)
  }

  function CancelStep(e: Economy, request: nat, rows: seq<nat>): (Economy, Outcome) {
    if request in e.cancelledRequests then (e, Ok(Unchanged))
    else if !RowsOf(e, request, rows) then (e, Err(NOT_FOUND))
    else
      var (after, closed) := CloseAll(e, rows);
      if closed.Err? then (e, closed)
      else (after.(cancelledRequests := after.cancelledRequests + {request}), Ok(Done))
  }

  function DeliverStep(e: Economy, id: nat, actor: Holder): (Economy, Outcome) {
    if id !in e.dispatches then (e, Err(NOT_FOUND))
    else
      var d := e.dispatches[id];
      var notOwner := if actor.Driver? then DISPATCH_NOT_CLAIMED_BY_DRIVER else DISPATCH_NOT_CLAIMED_BY_PROVIDER;
      if actor.Nobody? || d.holder != actor then (e, Err(notOwner))
      else if d.status.DELIVERED? then (e, Ok(Unchanged))
      else if !d.status.CLAIMED? then (e, Err(notOwner))
      else if d.active.None? then (e, Err(NO_ACTIVE_ASSIGNMENT))
      else (Write(e, id, d.(status := DELIVERED, active := None), e.ledger), Ok(Done))
  }

  datatype Op =
    | Tick(to: nat)
    | NewAccount(owner: Owner)
    | Approve(driver: nat)
    | Move(account: nat, key: string, movement: Movement)
    // A new version of a policy touches no dispatch, so there is no step for it: what was frozen stays.
    | Publish(id: nat, request: nat, window: Window, openToIndependents: bool,
              monetized: bool, snapshots: map<ActorType, Credits>, candidates: set<nat>)
    | NextRound(id: nat, window: Window, joined: set<nat>, over: bool)
    | Claim(id: nat, provider: nat, eligible: bool)
    | Take(id: nat, driver: nat, eligible: bool)
    | WinBeforeCharging(id: nat, holder: Holder)
    | Release(id: nat, provider: nat)
    | GiveBack(id: nat, driver: nat)
    | Assign(id: nat, driver: nat)
    | Reassign(id: nat, driver: nat)
    | Unassign(id: nat)
    | Cancel(request: nat, rows: seq<nat>)
    | Deliver(id: nat, actor: Holder)

  function PublishStep(e: Economy, id: nat, request: nat, window: Window, open: bool, monetized: bool,
                       snapshots: map<ActorType, Credits>, candidates: set<nat>): Economy
  {
    if id in e.dispatches || request in e.cancelledRequests then e
    else Write(e, id,
               Dispatch(request, OPEN, window, open, Nobody, None, monetized, {}, snapshots,
                        map p | p in candidates :: Offered, None, {}), e.ledger)
  }

  /** The search worker may move the window and invite more candidates, or end an OPEN dispatch. */
  function NextRoundStep(e: Economy, id: nat, window: Window, joined: set<nat>, over: bool): Economy {
    if id !in e.dispatches || !e.dispatches[id].status.OPEN? then e
    else
      var d := e.dispatches[id];
      if over then Write(e, id, d.(status := EXPIRED), e.ledger)
      else
        Write(e, id,
              d.(window := window,
                 candidates := map p | p in d.candidates.Keys + joined :: if p in d.candidates then d.candidates[p] else Offered),
              e.ledger)
  }

  /** History from before charging: won, not charged, and recorded as such by the migration. */
  function WinBeforeChargingStep(e: Economy, id: nat, holder: Holder): Economy {
    if id !in e.dispatches || !e.dispatches[id].status.OPEN? || holder.Nobody? then e
    else
      var d := e.dispatches[id];
      var exempt := d.(exemptions := d.exemptions + {Exemption(OwnerOf(holder), e.clock)});
      match holder
      case Provider(p) =>
        if p !in d.candidates || !d.candidates[p].Offered? then e
        else Write(e, id, ClaimedBy(exempt, p, e.clock), e.ledger)
      case Driver(dr) =>
        if dr !in e.profiles || dr in d.cancelledDrivers then e else Write(e, id, TakenBy(exempt, dr, e.clock), e.ledger)
  }

  /** A fleet may put a driver on a dispatch it holds, replace it, or take it off again. */
  function AssignStep(e: Economy, id: nat, driver: nat): Economy {
    if id !in e.dispatches then e
    else
      var d := e.dispatches[id];
      if !d.status.CLAIMED? || !d.holder.Provider? || d.active.Some? then e
      else Write(e, id, d.(active := Some(driver)), e.ledger)
  }

  /** A replaced driver's row ends as reassigned, not cancelled: it may still take the dispatch one day. */
  function ReassignStep(e: Economy, id: nat, driver: nat): Economy {
    if id !in e.dispatches then e
    else
      var d := e.dispatches[id];
      if !d.status.CLAIMED? || !d.holder.Provider? || d.active.None? then e
      else Write(e, id, d.(active := Some(driver)), e.ledger)
  }

  function UnassignStep(e: Economy, id: nat): Economy {
    if id !in e.dispatches then e
    else
      var d := e.dispatches[id];
      if !d.status.CLAIMED? || !d.holder.Provider? then e else Write(e, id, WithoutActive(d), e.ledger)
  }

  function Apply(e: Economy, op: Op): Economy {
    match op
    case Tick(to) => if to < e.clock then e else e.(clock := to)
    case NewAccount(owner) => e.(ledger := OpenAccountStep(e.ledger, owner))
    case Approve(driver) => e.(profiles := e.profiles + {driver})
    case Move(account, key, m) => if !Valid(m) then e else e.(ledger := LockedStep(e.ledger, account, key, m).0)
    case Publish(id, request, window, open, monetized, snapshots, candidates) =>
      PublishStep(e, id, request, window, open, monetized, snapshots, candidates)
    case NextRound(id, window, joined, over) => NextRoundStep(e, id, window, joined, over)
    case Claim(id, provider, eligible) => ClaimStep(e, id, provider, eligible).0
    case Take(id, driver, eligible) => TakeStep(e, id, driver, eligible).0
    case WinBeforeCharging(id, holder) => WinBeforeChargingStep(e, id, holder)
    case Release(id, provider) => ReleaseStep(e, id, provider).0
    case GiveBack(id, driver) => GiveBackStep(e, id, driver).0
    case Assign(id, driver) => AssignStep(e, id, driver)
    case Reassign(id, driver) => ReassignStep(e, id, driver)
    case Unassign(id) => UnassignStep(e, id)
    case Cancel(request, rows) => CancelStep(e, request, rows).0
    case Deliver(id, actor) => DeliverStep(e, id, actor).0
  }

  function Run(e: Economy, ops: seq<Op>): Economy
    decreases |ops|
  {
    if ops == [] then e else Run(Apply(e, ops[0]), ops[1..])
  }

  // ---------------------------------------------------------------- the invariant

  predicate Holds(d: Dispatch, owner: Owner) {
    (d.status.CLAIMED? || d.status.DELIVERED?) && !d.holder.Nobody? && OwnerOf(d.holder) == owner
  }

  /** What an account owes for a dispatch: the frozen cost while it holds it under enforcement, else 0. */
  function Owed(d: Dispatch, owner: Owner): int {
    if Holds(d, owner) && EnforcementMode(d, owner).ENFORCED? && owner.actorType in d.snapshots
    then -(d.snapshots[owner.actorType] as int) else 0
  }

  /** An actor that won the dispatch once and so cannot win it again. */
  predicate Spent(d: Dispatch, owner: Owner) {
    match owner.actorType
    case PROVIDER => owner.id in d.candidates && !d.candidates[owner.id].Offered?
    case INDEPENDENT_DRIVER => owner.id in d.cancelledDrivers || d.holder == Driver(owner.id)
  }

  ghost predicate DispatchSound(e: Economy, d: Dispatch) {
    && (d.status.OPEN? || d.status.EXPIRED? ==> d.holder.Nobody?)
    && (d.status.CLAIMED? || d.status.DELIVERED? ==> !d.holder.Nobody?)
    && (d.holder.Nobody? ==> d.claimedAt.None?)
    && (d.holder.Driver? ==> d.holder.driver in e.profiles)
    && (d.holder.Driver? && d.status.CLAIMED? ==> d.active == Some(d.holder.driver))
    && (!d.status.CLAIMED? ==> d.active.None?)
    && (d.holder.Driver? && d.status.CANCELLED? ==> d.holder.driver in d.cancelledDrivers)
    && (!d.holder.Nobody? ==> Spent(d, OwnerOf(d.holder)))
    && (forall p :: p in d.candidates && d.candidates[p].Claimed? ==> d.holder == Provider(p))
    && (forall x :: x in d.exemptions ==> Spent(d, x.owner))
    && (!d.holder.Nobody? && EnforcementMode(d, OwnerOf(d.holder)).ENFORCED? ==>
          && OwnerOf(d.holder).actorType in d.snapshots
          && AccountOf(e.ledger.accounts, OwnerOf(d.holder)).Some?)
    && (d.request in e.cancelledRequests ==> !Operational(d.status))
  }

  /** The ledger agrees with what each account owes, and only spent actors were ever charged. */
  ghost predicate Settled(e: Economy, a: nat, id: nat)
    requires a < |e.ledger.accounts|
  {
    var es, owner := e.ledger.entries, e.ledger.accounts[a].owner;
    if id in e.dispatches
    then Net(es, a, id) == Owed(e.dispatches[id], owner) && (FindAward(es, a, id).Some? ==> Spent(e.dispatches[id], owner))
    else FindAward(es, a, id).None?
  }

  ghost predicate Sound(e: Economy) {
    && CreditLedger.Sound(e.ledger)
    && (forall id :: id in e.dispatches ==> DispatchSound(e, e.dispatches[id]))
    && (forall a, id :: 0 <= a < |e.ledger.accounts| ==> Settled(e, a, id))
  }

  // ---------------------------------------------------------------- frames

  lemma NetGrows(es: seq<Entry>, x: Entry, a: nat, id: nat)
    ensures Net(es + [x], a, id) == Net(es, a, id) + (if About(x, a, id) then x.amount else 0)
    ensures FindAward(es + [x], a, id).Some? <==>
              FindAward(es, a, id).Some? || (x.account == a && x.origin == Award(id))
  {
    assert (es + [x])[..|es|] == es;
    var mine := ServiceEntries(es, a, id);
    assert (mine + [x])[..|mine|] == mine;
  }

  /** Nothing owed changes and nobody becomes free to win again. */
  ghost predicate Keeps(d: Dispatch, after: Dispatch) {
    forall owner :: Owed(after, owner) == Owed(d, owner) && (Spent(d, owner) ==> Spent(after, owner))
  }

  lemma WriteIsSound(e: Economy, id: nat, after: Dispatch)
    requires Sound(e) && id in e.dispatches && DispatchSound(e, after) && Keeps(e.dispatches[id], after)
    ensures Sound(Write(e, id, after, e.ledger))
  {
    var w := Write(e, id, after, e.ledger);
    forall a, other: nat | 0 <= a < |w.ledger.accounts| ensures Settled(w, a, other) { assert Settled(e, a, other); }
    forall other | other in w.dispatches ensures DispatchSound(w, w.dispatches[other]) {
      if other != id { assert DispatchSound(e, e.dispatches[other]); }
    }
  }

  /** A ledger that grew by one entry, or not at all, on the same accounts. */
  ghost predicate GrownBy(l: Ledger, after: Ledger, x: Entry) {
    && after.entries == l.entries + [x]
    && |after.accounts| == |l.accounts|
    && forall a :: 0 <= a < |l.accounts| ==> after.accounts[a].owner == l.accounts[a].owner
  }

  lemma DispatchStaysSound(e: Economy, after: Economy, d: Dispatch)
    requires DispatchSound(e, d)
    requires e.profiles <= after.profiles && e.cancelledRequests == after.cancelledRequests
    requires |e.ledger.accounts| <= |after.ledger.accounts|
    requires forall a :: 0 <= a < |e.ledger.accounts| ==> after.ledger.accounts[a].owner == e.ledger.accounts[a].owner
    ensures DispatchSound(after, d)
  {
    if !d.holder.Nobody? && EnforcementMode(d, OwnerOf(d.holder)).ENFORCED? {
      var a := AccountOf(e.ledger.accounts, OwnerOf(d.holder)).value;
      assert after.ledger.accounts[a].owner == e.ledger.accounts[a].owner;
    }
  }

  /** One entry about dispatch `id` on account `a`, together with the dispatch it settles. */
  lemma SettlementIsSound(e: Economy, id: nat, after: Dispatch, ledger: Ledger, x: Entry, owner: Owner)
    requires Sound(e) && id in e.dispatches && CreditLedger.Sound(ledger) && GrownBy(e.ledger, ledger, x)
    requires x.account < |e.ledger.accounts| && e.ledger.accounts[x.account].owner == owner
    requires !x.origin.Human? && x.origin.dispatch == id
    requires DispatchSound(e, after)
    requires Owed(after, owner) == Owed(e.dispatches[id], owner) + x.amount && Spent(after, owner)
    requires forall other :: other != owner ==>
               Owed(after, other) == Owed(e.dispatches[id], other) && (Spent(e.dispatches[id], other) ==> Spent(after, other))
    ensures Sound(Write(e, id, after, ledger))
  {
    var w := Write(e, id, after, ledger);
    forall a, other: nat | 0 <= a < |w.ledger.accounts| ensures Settled(w, a, other) {
      assert Settled(e, a, other);
      NetGrows(e.ledger.entries, x, a, other);
      if a != x.account { OwnersDiffer(e.ledger, a, x.account); }
    }
    forall other | other in w.dispatches ensures DispatchSound(w, w.dispatches[other]) {
      if other != id { DispatchStaysSound(e, w, e.dispatches[other]); } else { DispatchStaysSound(e, w, after); }
    }
  }

  lemma OwnersDiffer(l: Ledger, a: nat, b: nat)
    requires CreditLedger.Sound(l) && a < |l.accounts| && b < |l.accounts| && a != b
    ensures l.accounts[a].owner != l.accounts[b].owner
  {}

  // ---------------------------------------------------------------- winning and losing

  /** From a dispatch nobody holds, `after` is held by `owner`, who had never won it. */
  ghost predicate Winning(d: Dispatch, after: Dispatch, owner: Owner) {
    && d.status.OPEN? && after.status.CLAIMED? && !after.holder.Nobody? && OwnerOf(after.holder) == owner
    && !Spent(d, owner) && Spent(after, owner)
    && (forall other :: Spent(d, other) ==> Spent(after, other))
    && after.exemptions == d.exemptions && after.snapshots == d.snapshots && after.monetized == d.monetized
  }

  /** All that DispatchSound asks of a winner before it is charged. */
  ghost predicate WinnerReady(e: Economy, after: Dispatch) {
    && (after.holder.Driver? ==> after.holder.driver in e.profiles && after.active == Some(after.holder.driver))
    && (forall p :: p in after.candidates && after.candidates[p].Claimed? ==> after.holder == Provider(p))
    && after.request !in e.cancelledRequests
  }

  /** An actor that never won this dispatch is charged its frozen cost, once, or not charged at all. */
  lemma ChargeTakesTheFrozenCost(e: Economy, id: nat, monetized: bool, snapshot: Option<Credits>, owner: Owner)
    requires Sound(e) && id in e.dispatches && !Spent(e.dispatches[id], owner)
    ensures var (ledger, charged) := ChargeStep(e.ledger, monetized, snapshot, owner, id);
            && charged != Err(CREDIT_MOVEMENT_CONFLICT)
            && (charged.Ok? && charged.value.Charged? ==>
                  var x := charged.value.entry;
                  && monetized && snapshot.Some? && AccountOf(e.ledger.accounts, owner).Some?
                  && GrownBy(e.ledger, ledger, x) && x.account < |e.ledger.accounts|
                  && e.ledger.accounts[x.account].owner == owner
                  && x.origin == Award(id) && x.amount == -(snapshot.value as int))
            && (charged.Ok? && !charged.value.Charged? ==> ledger == e.ledger && !monetized)
  {
    var account := AccountOf(e.ledger.accounts, owner);
    if account.Some? { assert Settled(e, account.value, id); }
  }

  lemma WinIsSound(e: Economy, id: nat, after: Dispatch, owner: Owner)
    requires Sound(e) && id in e.dispatches && Winning(e.dispatches[id], after, owner) && WinnerReady(e, after)
    ensures Sound(Win(e, id, after, owner).0)
    ensures Win(e, id, after, owner).1 != Err(Economic(CREDIT_MOVEMENT_CONFLICT))
  {
    var d, snapshot := e.dispatches[id], SnapshotFor(after, owner.actorType);
    assert DispatchSound(e, d);
    NewWinnersAreNotExempt(e, d, after, owner);
    var (ledger, charged) := ChargeStep(e.ledger, after.monetized, snapshot, owner, id);
    ChargeIsSound(e.ledger, after.monetized, snapshot, owner, id);
    ChargeTakesTheFrozenCost(e, id, after.monetized, snapshot, owner);
    if charged.Ok? {
      if charged.value.Charged? {
        SettlementIsSound(e, id, after, ledger, charged.value.entry, owner);
      } else {
        WriteIsSound(e, id, after);
      }
    }
  }

  lemma NewWinnersAreNotExempt(e: Economy, d: Dispatch, after: Dispatch, owner: Owner)
    requires DispatchSound(e, d) && Winning(d, after, owner)
    ensures EnforcementMode(after, owner) == if after.monetized then ENFORCED else LEGACY
    ensures forall other :: Owed(d, other) == 0
  {}

  /** Nobody holds `after`, and everyone who had won the dispatch still cannot win it again. */
  ghost predicate Losing(d: Dispatch, after: Dispatch, owner: Owner) {
    && d.status.CLAIMED? && !d.holder.Nobody? && OwnerOf(d.holder) == owner
    && !after.status.CLAIMED? && !after.status.DELIVERED? && Spent(after, owner)
    && forall other :: Spent(d, other) ==> Spent(after, other)
  }

  /** A reversal returns exactly what is owed: one opposite entry, or nothing when nothing is. */
  lemma RefundReturnsWhatIsOwed(e: Economy, id: nat, owner: Owner)
    requires Sound(e) && id in e.dispatches && Holds(e.dispatches[id], owner)
    ensures var d := e.dispatches[id];
            var (ledger, refunded) := RefundStep(e.ledger, EnforcementMode(d, owner), owner, id);
            && refunded != Err(CREDIT_REFUND_INTEGRITY_ERROR)
            && (refunded.Ok? && refunded.value.Refunded? ==>
                  var x := refunded.value.entry;
                  && GrownBy(e.ledger, ledger, x) && x.account < |e.ledger.accounts|
                  && e.ledger.accounts[x.account].owner == owner
                  && x.origin.Refund? && x.origin.dispatch == id && x.amount == -Owed(d, owner))
            && (refunded.Ok? && !refunded.value.Refunded? ==> ledger == e.ledger && Owed(d, owner) == 0)
  {
    var d := e.dispatches[id];
    assert DispatchSound(e, d);
    var account := AccountOf(e.ledger.accounts, owner);
    if account.Some? {
      assert Settled(e, account.value, id);
      ServiceEntriesAreAnAwardAndItsRefund(e.ledger.entries, account.value, id);
      FoundAward(e.ledger.entries, account.value, id);
    }
  }

  lemma LosersOweNothing(d: Dispatch, after: Dispatch, owner: Owner)
    requires Losing(d, after, owner)
    ensures Holds(d, owner) && forall other :: Owed(after, other) == 0 && (other != owner ==> Owed(d, other) == 0)
  {}

  lemma ReverseIsSound(e: Economy, id: nat, after: Dispatch, owner: Owner)
    requires Sound(e) && id in e.dispatches && Losing(e.dispatches[id], after, owner) && DispatchSound(e, after)
    ensures var d := e.dispatches[id];
            && Sound(Reverse(e, id, d, after, owner).0)
            && Reverse(e, id, d, after, owner).1 != Err(Economic(CREDIT_REFUND_INTEGRITY_ERROR))
  {
    var d := e.dispatches[id];
    var (ledger, refunded) := RefundStep(e.ledger, EnforcementMode(d, owner), owner, id);
    RefundIsSound(e.ledger, EnforcementMode(d, owner), owner, id);
    LosersOweNothing(d, after, owner);
    RefundReturnsWhatIsOwed(e, id, owner);
    if refunded.Ok? {
      if refunded.value.Refunded? {
        SettlementIsSound(e, id, after, ledger, refunded.value.entry, owner);
      } else {
        WriteIsSound(e, id, after);
      }
    }
  }

  // ---------------------------------------------------------------- every step

  lemma NewAccountIsSound(e: Economy, owner: Owner)
    requires Sound(e)
    ensures Sound(Apply(e, NewAccount(owner)))
  {
    var after := Apply(e, NewAccount(owner));
    OpenAccountIsSound(e.ledger, owner);
    forall id | id in e.dispatches ensures DispatchSound(after, e.dispatches[id]) {
      DispatchStaysSound(e, after, e.dispatches[id]);
    }
    forall a, id: nat | 0 <= a < |after.ledger.accounts| ensures Settled(after, a, id) {
      if a < |e.ledger.accounts| {
        assert Settled(e, a, id);
      } else {
        NothingOn(e.ledger.entries, a, id);
        if id in e.dispatches { assert DispatchSound(e, e.dispatches[id]); }
      }
    }
  }

  lemma {:induction false} NothingOn(es: seq<Entry>, a: nat, id: nat)
    requires forall i :: 0 <= i < |es| ==> es[i].account != a
    ensures Net(es, a, id) == 0 && FindAward(es, a, id).None?
  {
    if es != [] { NothingOn(es[..|es| - 1], a, id); }
  }

  lemma MoveIsSound(e: Economy, account: nat, key: string, m: Movement)
    requires Sound(e)
    ensures Sound(Apply(e, Move(account, key, m)))
  {
    var after := Apply(e, Move(account, key, m));
    if after != e {
      LockedIsSound(e.ledger, account, key, m);
      var x := after.ledger.entries[|e.ledger.entries|];
      forall id | id in e.dispatches ensures DispatchSound(after, e.dispatches[id]) {
        DispatchStaysSound(e, after, e.dispatches[id]);
      }
      forall a, id: nat | 0 <= a < |after.ledger.accounts| ensures Settled(after, a, id) {
        assert Settled(e, a, id);
        NetGrows(e.ledger.entries, x, a, id);
      }
    }
  }

  lemma ApproveIsSound(e: Economy, driver: nat)
    requires Sound(e)
    ensures Sound(Apply(e, Approve(driver)))
  {
    var after := Apply(e, Approve(driver));
    forall id | id in e.dispatches ensures DispatchSound(after, e.dispatches[id]) {
      DispatchStaysSound(e, after, e.dispatches[id]);
    }
    forall a, id: nat | 0 <= a < |after.ledger.accounts| ensures Settled(after, a, id) { assert Settled(e, a, id); }
  }

  lemma PublishIsSound(e: Economy, op: Op)
    requires Sound(e) && op.Publish?
    ensures Sound(Apply(e, op))
  {
    var after := Apply(e, op);
    if after != e {
      forall a, id: nat | 0 <= a < |after.ledger.accounts| ensures Settled(after, a, id) {
        assert Settled(e, a, id);
        if id == op.id { ServiceEntriesAreAnAwardAndItsRefund(e.ledger.entries, a, id); }
      }
      forall id | id in after.dispatches ensures DispatchSound(after, after.dispatches[id]) {
        if id != op.id { assert DispatchSound(e, e.dispatches[id]); }
      }
    }
  }

  lemma ClaimIsSound(e: Economy, id: nat, provider: nat, eligible: bool)
    requires Sound(e)
    ensures Sound(ClaimStep(e, id, provider, eligible).0)
    ensures ClaimStep(e, id, provider, eligible).1 != Err(Economic(CREDIT_MOVEMENT_CONFLICT))
  {
    if id in e.dispatches && provider in e.dispatches[id].candidates {
      var d := e.dispatches[id];
      assert DispatchSound(e, d);
      match ClaimRejection(d.status, d.window, d.holder, d.candidates[provider], provider, e.clock)
      case AlreadyOwner =>
      case Refused(code) =>
        if code.DISPATCH_EXPIRED? && d.status.OPEN? { WriteIsSound(e, id, d.(status := EXPIRED)); }
      case Proceed => WinIsSound(e, id, ClaimedBy(d, provider, e.clock), Owner(PROVIDER, provider));
    }
  }

  lemma TakeIsSound(e: Economy, id: nat, driver: nat, eligible: bool)
    requires Sound(e)
    ensures Sound(TakeStep(e, id, driver, eligible).0)
    ensures TakeStep(e, id, driver, eligible).1 != Err(Economic(CREDIT_MOVEMENT_CONFLICT))
  {
    if driver in e.profiles && id in e.dispatches {
      var d := e.dispatches[id];
      assert DispatchSound(e, d);
      match TakeRejection(d.status, d.window, d.openToIndependents, driver in d.cancelledDrivers, e.clock)
      case Refused(code) =>
        if code.DISPATCH_EXPIRED? && d.status.OPEN? { WriteIsSound(e, id, d.(status := EXPIRED)); }
      case _ => WinIsSound(e, id, TakenBy(d, driver, e.clock), Owner(INDEPENDENT_DRIVER, driver));
    }
  }

  lemma WinBeforeChargingIsSound(e: Economy, id: nat, holder: Holder)
    requires Sound(e)
    ensures Sound(WinBeforeChargingStep(e, id, holder))
  {
    var after := WinBeforeChargingStep(e, id, holder);
    if after != e {
      assert DispatchSound(e, e.dispatches[id]);
      WriteIsSound(e, id, after.dispatches[id]);
    }
  }

  lemma ReleaseIsSound(e: Economy, id: nat, provider: nat)
    requires Sound(e)
    ensures Sound(ReleaseStep(e, id, provider).0)
    ensures ReleaseStep(e, id, provider).1 != Err(Economic(CREDIT_REFUND_INTEGRITY_ERROR))
  {
    if id in e.dispatches && provider in e.dispatches[id].candidates {
      var d := e.dispatches[id];
      if d.status.CLAIMED? && d.holder == Provider(provider) && d.active.None? {
        assert DispatchSound(e, d);
        ReverseIsSound(e, id, Reopened(d, e.clock).(candidates := d.candidates[provider := Released]), Owner(PROVIDER, provider));
      }
    }
  }

  lemma GiveBackIsSound(e: Economy, id: nat, driver: nat)
    requires Sound(e)
    ensures Sound(GiveBackStep(e, id, driver).0)
    ensures GiveBackStep(e, id, driver).1 != Err(Economic(CREDIT_REFUND_INTEGRITY_ERROR))
  {
    if driver in e.profiles && id in e.dispatches {
      var d := e.dispatches[id];
      if d.status.CLAIMED? && d.holder == Driver(driver) {
        assert DispatchSound(e, d);
        ReverseIsSound(e, id, Reopened(WithoutActive(d), e.clock), Owner(INDEPENDENT_DRIVER, driver));
      }
    }
  }

  lemma CloseOneIsSound(e: Economy, id: nat)
    requires Sound(e) && id in e.dispatches && Operational(e.dispatches[id].status)
    ensures Sound(CloseOne(e, id).0)
    ensures CloseOne(e, id).1 != Err(Economic(CREDIT_REFUND_INTEGRITY_ERROR))
  {
    var d := e.dispatches[id];
    assert DispatchSound(e, d);
    if d.holder.Nobody? {
      WriteIsSound(e, id, Closed(d, e.clock));
    } else {
      ReverseIsSound(e, id, Closed(d, e.clock), OwnerOf(d.holder));
    }
  }

  lemma {:induction false} CloseAllIsSound(e: Economy, rows: seq<nat>)
    requires Sound(e)
    ensures Sound(CloseAll(e, rows).0)
    ensures CloseAll(e, rows).1 != Err(Economic(CREDIT_REFUND_INTEGRITY_ERROR))
    decreases |rows|
  {
    if rows != [] && rows[0] in e.dispatches && Operational(e.dispatches[rows[0]].status) {
      CloseOneIsSound(e, rows[0]);
      CloseAllIsSound(CloseOne(e, rows[0]).0, rows[1..]);
    }
  }

  /** What closing one dispatch may do to any dispatch. */
  ghost predicate ClosedOnly(e: Economy, after: Economy, id: nat, other: nat)
    requires other in e.dispatches
  {
    && other in after.dispatches
    && var d, later := e.dispatches[other], after.dispatches[other];
       && later.request == d.request && later.snapshots == d.snapshots && later.monetized == d.monetized
       && (other != id ==> later == d)
       && (other == id ==> !Operational(later.status))
  }

  lemma CloseOneCloses(e: Economy, id: nat, other: nat)
    requires id in e.dispatches && other in e.dispatches
    ensures var (after, closed) := CloseOne(e, id);
            && after.cancelledRequests == e.cancelledRequests
            && (closed.Ok? ==> ClosedOnly(e, after, id, other))
            && (closed.Err? ==> after == e)
  {}

  lemma {:induction false} CloseAllCloses(e: Economy, rows: seq<nat>, id: nat)
    requires id in e.dispatches
    ensures var (after, closed) := CloseAll(e, rows);
            && after.cancelledRequests == e.cancelledRequests && id in after.dispatches
            && var d, later := e.dispatches[id], after.dispatches[id];
               && later.request == d.request && later.snapshots == d.snapshots && later.monetized == d.monetized
               && (!Operational(d.status) ==> later == d)
               && (closed.Ok? && Operational(d.status) && id in rows ==> !Operational(later.status))
    decreases |rows|
  {
    if rows != [] && rows[0] in e.dispatches && Operational(e.dispatches[rows[0]].status) {
      CloseOneCloses(e, rows[0], id);
      var (next, closed) := CloseOne(e, rows[0]);
      if closed.Ok? { CloseAllCloses(next, rows[1..], id); }
    }
  }

  lemma {:induction false} CloseAllAddsNone(e: Economy, rows: seq<nat>)
    ensures CloseAll(e, rows).0.dispatches.Keys == e.dispatches.Keys
    decreases |rows|
  {
    if rows != [] && rows[0] in e.dispatches && Operational(e.dispatches[rows[0]].status) {
      CloseAllAddsNone(CloseOne(e, rows[0]).0, rows[1..]);
    }
  }

  /** Cancelling ends every operational dispatch of the request and returns each holder's charge, or nothing. */
  lemma CancelIsSound(e: Economy, request: nat, rows: seq<nat>)
    requires Sound(e)
    ensures Sound(CancelStep(e, request, rows).0)
    ensures CancelStep(e, request, rows).1 != Err(Economic(CREDIT_REFUND_INTEGRITY_ERROR))
    ensures CancelStep(e, request, rows).1.Err? ==> CancelStep(e, request, rows).0 == e
  {
    CloseAllIsSound(e, rows);
    CloseAllAddsNone(e, rows);
    var (closed, r) := CloseAll(e, rows);
    var after := CancelStep(e, request, rows).0;
    if after != e {
      forall id | id in after.dispatches ensures DispatchSound(after, after.dispatches[id]) {
        assert DispatchSound(closed, closed.dispatches[id]);
        CloseAllCloses(e, rows, id);
      }
      forall a, id: nat | 0 <= a < |after.ledger.accounts| ensures Settled(after, a, id) { assert Settled(closed, a, id); }
    }
  }

  lemma TickIsSound(e: Economy, to: nat)
    requires Sound(e)
    ensures Sound(Apply(e, Tick(to)))
  {
    var after := Apply(e, Tick(to));
    forall a, id: nat | 0 <= a < |after.ledger.accounts| ensures Settled(after, a, id) { assert Settled(e, a, id); }
    forall id | id in after.dispatches ensures DispatchSound(after, after.dispatches[id]) {
      assert DispatchSound(e, e.dispatches[id]);
    }
  }

  lemma NextRoundIsSound(e: Economy, id: nat, window: Window, joined: set<nat>, over: bool)
    requires Sound(e)
    ensures Sound(NextRoundStep(e, id, window, joined, over))
  {
    var after := NextRoundStep(e, id, window, joined, over);
    if after != e {
      assert DispatchSound(e, e.dispatches[id]);
      WriteIsSound(e, id, after.dispatches[id]);
    }
  }

  lemma AssignIsSound(e: Economy, id: nat, driver: nat)
    requires Sound(e)
    ensures Sound(AssignStep(e, id, driver))
  {
    if AssignStep(e, id, driver) != e {
      FleetRowIsSound(e, id, e.dispatches[id].(active := Some(driver)));
    }
  }

  lemma ReassignIsSound(e: Economy, id: nat, driver: nat)
    requires Sound(e)
    ensures Sound(ReassignStep(e, id, driver))
  {
    if ReassignStep(e, id, driver) != e {
      FleetRowIsSound(e, id, e.dispatches[id].(active := Some(driver)));
    }
  }

  /** Who drives a fleet's claimed dispatch, and who was taken off it, is no matter of credits. */
  lemma FleetRowIsSound(e: Economy, id: nat, after: Dispatch)
    requires Sound(e) && id in e.dispatches && e.dispatches[id].status.CLAIMED? && e.dispatches[id].holder.Provider?
    requires after == e.dispatches[id].(active := after.active, cancelledDrivers := after.cancelledDrivers)
    requires e.dispatches[id].cancelledDrivers <= after.cancelledDrivers
    ensures Sound(Write(e, id, after, e.ledger))
  {
    assert DispatchSound(e, e.dispatches[id]);
    assert DispatchSound(e, after);
    WriteIsSound(e, id, after);
  }

  lemma UnassignIsSound(e: Economy, id: nat)
    requires Sound(e)
    ensures Sound(UnassignStep(e, id))
  {
    if UnassignStep(e, id) != e {
      FleetRowIsSound(e, id, WithoutActive(e.dispatches[id]));
    }
  }

  lemma DeliverIsSound(e: Economy, id: nat, actor: Holder)
    requires Sound(e)
    ensures Sound(DeliverStep(e, id, actor).0)
    ensures DeliverStep(e, id, actor).0.ledger == e.ledger
  {
    if DeliverStep(e, id, actor).0 != e {
      assert DispatchSound(e, e.dispatches[id]);
      WriteIsSound(e, id, e.dispatches[id].(status := DELIVERED, active := None));
    }
  }

  /** The steps that win a dispatch, or end it delivered. */
  lemma WinStepIsSound(e: Economy, op: Op)
    requires Sound(e) && (op.Claim? || op.Take? || op.WinBeforeCharging? || op.Deliver?)
    ensures Sound(Apply(e, op))
  {
    match op
    case Claim(id, provider, eligible) => ClaimIsSound(e, id, provider, eligible);
    case Take(id, driver, eligible) => TakeIsSound(e, id, driver, eligible);
    case WinBeforeCharging(id, holder) => WinBeforeChargingIsSound(e, id, holder);
    case Deliver(id, actor) => DeliverIsSound(e, id, actor);
  }

  /** The steps that give a dispatch up or call it off. */
  lemma LossStepIsSound(e: Economy, op: Op)
    requires Sound(e) && (op.Release? || op.GiveBack? || op.Cancel?)
    ensures Sound(Apply(e, op))
  {
    match op
    case Release(id, provider) => ReleaseIsSound(e, id, provider);
    case GiveBack(id, driver) => GiveBackIsSound(e, id, driver);
    case Cancel(request, rows) => CancelIsSound(e, request, rows);
  }

  /** The steps that work on a dispatch without changing who holds it. */
  lemma WorkStepIsSound(e: Economy, op: Op)
    requires Sound(e) && (op.NextRound? || op.Assign? || op.Reassign? || op.Unassign?)
    ensures Sound(Apply(e, op))
  {
    match op
    case NextRound(id, window, joined, over) => NextRoundIsSound(e, id, window, joined, over);
    case Assign(id, driver) => AssignIsSound(e, id, driver);
    case Reassign(id, driver) => ReassignIsSound(e, id, driver);
    case Unassign(id) => UnassignIsSound(e, id);
  }

  lemma OtherStepIsSound(e: Economy, op: Op)
    requires Sound(e) && (op.NewAccount? || op.Approve? || op.Move? || op.Publish? || op.Tick?)
    ensures Sound(Apply(e, op))
  {
    match op
    case NewAccount(owner) => NewAccountIsSound(e, owner);
    case Approve(driver) => ApproveIsSound(e, driver);
    case Move(account, key, m) => MoveIsSound(e, account, key, m);
    case Publish(_, _, _, _, _, _, _) => PublishIsSound(e, op);
    case Tick(to) => TickIsSound(e, to);
  }

  lemma StepIsSound(e: Economy, op: Op)
    requires Sound(e)
    ensures Sound(Apply(e, op))
  {
    if op.Claim? || op.Take? || op.WinBeforeCharging? || op.Deliver? { WinStepIsSound(e, op); }
    else if op.Release? || op.GiveBack? || op.Cancel? { LossStepIsSound(e, op); }
    else if op.NextRound? || op.Assign? || op.Reassign? || op.Unassign? { WorkStepIsSound(e, op); }
    else { OtherStepIsSound(e, op); }
  }

  lemma {:induction false} RunIsSound(e: Economy, ops: seq<Op>)
    requires Sound(e)
    ensures Sound(Run(e, ops))
    decreases |ops|
  {
    if ops != [] {
      StepIsSound(e, ops[0]);
      RunIsSound(Apply(e, ops[0]), ops[1..]);
    }
  }

  // ---------------------------------------------------------------- main results

  /**
   * After any run, an account's entries for a dispatch are none, one award, or one award and its exact
   * opposite refund; they net to minus the frozen cost for the account that holds or delivered it under
   * enforcement, and to 0 for every other account.
   */
  lemma NetIsTheHoldersFrozenCost(ops: seq<Op>, a: nat, id: nat)
    ensures var e := Run(START, ops);
            var es := e.ledger.entries;
            a < |e.ledger.accounts| ==>
              && ServiceEntries(es, a, id) == Expected(es, a, id)
              && (id !in e.dispatches ==> ServiceEntries(es, a, id) == [])
              && (id in e.dispatches ==>
                    var d, owner := e.dispatches[id], e.ledger.accounts[a].owner;
                    if Holds(d, owner) && EnforcementMode(d, owner).ENFORCED?
                    then owner.actorType in d.snapshots && Net(es, a, id) == -(d.snapshots[owner.actorType] as int)
                    else Net(es, a, id) == 0)
  {
    RunIsSound(START, ops);
    var e := Run(START, ops);
    if a < |e.ledger.accounts| {
      assert Settled(e, a, id);
      ServiceEntriesAreAnAwardAndItsRefund(e.ledger.entries, a, id);
      if id in e.dispatches { assert DispatchSound(e, e.dispatches[id]); }
    }
  }

  /** A refund entry is the opposite of the award it points at, on the same account and dispatch. */
  lemma RefundsMirrorAwards(ops: seq<Op>, i: nat)
    ensures var es := Run(START, ops).ledger.entries;
            i < |es| && es[i].origin.Refund? ==>
              var r := es[i].origin.reverses;
              && r < i && es[r].origin == Award(es[i].origin.dispatch) && es[r].account == es[i].account
              && es[i].amount == -es[r].amount > 0
  {
    RunIsSound(START, ops);
    var es := Run(START, ops).ledger.entries;
    if i < |es| { EntryIds(es, i); }
  }

  ghost predicate Frozen(e: Economy, after: Economy, id: nat)
    requires id in e.dispatches
  {
    && id in after.dispatches
    && var d, later := e.dispatches[id], after.dispatches[id];
       later.snapshots == d.snapshots && later.monetized == d.monetized && (d.status.DELIVERED? ==> later == d)
  }

  lemma WinningKeepsWhatIsFrozen(e: Economy, op: Op, id: nat)
    requires id in e.dispatches && (op.Claim? || op.Take? || op.WinBeforeCharging?)
    ensures Frozen(e, Apply(e, op), id)
  {}

  lemma LosingKeepsWhatIsFrozen(e: Economy, op: Op, id: nat)
    requires id in e.dispatches && (op.Release? || op.GiveBack?)
    ensures Frozen(e, Apply(e, op), id)
  {}

  lemma RestKeepsWhatIsFrozen(e: Economy, op: Op, id: nat)
    requires id in e.dispatches && (op.NextRound? || op.Assign? || op.Reassign? || op.Unassign? || op.Deliver?)
    ensures Frozen(e, Apply(e, op), id)
  {}

  lemma StepKeepsWhatIsFrozen(e: Economy, op: Op, id: nat)
    requires id in e.dispatches
    ensures Frozen(e, Apply(e, op), id)
  {
    if op.Claim? || op.Take? || op.WinBeforeCharging? { WinningKeepsWhatIsFrozen(e, op, id); }
    else if op.Release? || op.GiveBack? { LosingKeepsWhatIsFrozen(e, op, id); }
    else if op.NextRound? || op.Assign? || op.Reassign? || op.Unassign? || op.Deliver? { RestKeepsWhatIsFrozen(e, op, id); }
    else if op.Cancel? { CloseAllCloses(e, op.rows, id); }
  }

  /** What was frozen at the opening never changes, and a delivered dispatch is final. */
  lemma {:induction false} FrozenCostsStay(e: Economy, ops: seq<Op>, id: nat)
    requires id in e.dispatches
    ensures Frozen(e, Run(e, ops), id)
    decreases |ops|
  {
    if ops != [] {
      StepKeepsWhatIsFrozen(e, ops[0], id);
      FrozenCostsStay(Apply(e, ops[0]), ops[1..], id);
    }
  }

  /** No run leaves a cancelled request with a dispatch anyone can still win or is executing. */
  lemma CancelledRequestsAreNotOperational(ops: seq<Op>, id: nat)
    ensures var e := Run(START, ops);
            id in e.dispatches && e.dispatches[id].request in e.cancelledRequests ==> !Operational(e.dispatches[id].status)
  {
    RunIsSound(START, ops);
    var e := Run(START, ops);
    if id in e.dispatches { assert DispatchSound(e, e.dispatches[id]); }
  }

  /** The step that won cost its winner exactly the frozen cost, and left the balance at 0 or more. */
  ghost predicate Debited(e: Economy, after: Economy, id: nat, owner: Owner)
    requires id in e.dispatches
  {
    && owner.actorType in e.dispatches[id].snapshots
    && var a := AccountOf(e.ledger.accounts, owner);
       && a.Some? && |after.ledger.accounts| == |e.ledger.accounts|
       && after.ledger.accounts[a.value].balance
            == e.ledger.accounts[a.value].balance - (e.dispatches[id].snapshots[owner.actorType] as int)
       && 0 <= after.ledger.accounts[a.value].balance
  }

  /** Under enforcement a win, by claim or by take, is such a debit, and one that cannot be paid is no win. */
  lemma WinningCosts(e: Economy, id: nat, provider: nat, driver: nat, eligible: bool)
    ensures var (after, r) := ClaimStep(e, id, provider, eligible);
            && (r == Ok(Done) && e.dispatches[id].monetized ==> Debited(e, after, id, Owner(PROVIDER, provider)))
            && (r.Err? && r.error.Economic? ==> after == e)
    ensures var (after, r) := TakeStep(e, id, driver, eligible);
            && (r == Ok(Done) && e.dispatches[id].monetized ==> Debited(e, after, id, Owner(INDEPENDENT_DRIVER, driver)))
            && (r.Err? && r.error.Economic? ==> after == e)
  {
    if ClaimStep(e, id, provider, eligible).1 == Ok(Done) {
      WinDebits(e, id, ClaimedBy(e.dispatches[id], provider, e.clock), Owner(PROVIDER, provider));
    }
    if TakeStep(e, id, driver, eligible).1 == Ok(Done) {
      WinDebits(e, id, TakenBy(e.dispatches[id], driver, e.clock), Owner(INDEPENDENT_DRIVER, driver));
    }
  }

  lemma WinDebits(e: Economy, id: nat, d: Dispatch, owner: Owner)
    requires Win(e, id, d, owner).1.Ok?
    ensures d.monetized ==>
              && owner.actorType in d.snapshots
              && var a, after := AccountOf(e.ledger.accounts, owner), Win(e, id, d, owner).0.ledger.accounts;
                 && a.Some? && |after| == |e.ledger.accounts|
                 && after[a.value].balance == e.ledger.accounts[a.value].balance - (d.snapshots[owner.actorType] as int)
                 && 0 <= after[a.value].balance
  {}

  // ---------------------------------------------------------------- when a reversal is refused

  function BalanceOf(e: Economy, owner: Owner): int {
    var a := AccountOf(e.ledger.accounts, owner);
    if a.None? then 0 else e.ledger.accounts[a.value].balance
  }

  /** Giving this back would lift the owner's balance above the maximum. */
  predicate Overfills(e: Economy, d: Dispatch, owner: Owner) {
    Owed(d, owner) != 0 && BalanceOf(e, owner) - Owed(d, owner) > MAX_CREDIT_BALANCE
  }

  /** The refund of what a holder owes is refused exactly when it does not fit under the maximum balance. */
  lemma RefundIsRefusedIff(e: Economy, id: nat, owner: Owner)
    requires Sound(e) && id in e.dispatches && Holds(e.dispatches[id], owner)
    ensures var d := e.dispatches[id];
            var refunded := RefundStep(e.ledger, EnforcementMode(d, owner), owner, id).1;
            && (refunded.Err? <==> Overfills(e, d, owner))
            && (refunded.Err? ==> refunded.error == CREDIT_BALANCE_LIMIT)
  {
    var d := e.dispatches[id];
    assert DispatchSound(e, d);
    var account := AccountOf(e.ledger.accounts, owner);
    if account.Some? {
      assert Settled(e, account.value, id);
      ServiceEntriesAreAnAwardAndItsRefund(e.ledger.entries, account.value, id);
      FoundAward(e.ledger.entries, account.value, id);
    }
  }

  /** A provider that may release does so, unless its credits would not fit back. */
  lemma ReleaseIsRefusedIff(e: Economy, id: nat, provider: nat)
    requires Sound(e) && id in e.dispatches && provider in e.dispatches[id].candidates
    requires var d := e.dispatches[id]; d.status.CLAIMED? && d.holder == Provider(provider) && d.active.None?
    ensures ReleaseStep(e, id, provider).1 ==
            if Overfills(e, e.dispatches[id], Owner(PROVIDER, provider)) then Err(Economic(CREDIT_BALANCE_LIMIT)) else Ok(Done)
    ensures ReleaseStep(e, id, provider).1.Err? ==> ReleaseStep(e, id, provider).0 == e
  {
    RefundIsRefusedIff(e, id, Owner(PROVIDER, provider));
  }

  /** So does a driver that holds the dispatch. */
  lemma GiveBackIsRefusedIff(e: Economy, id: nat, driver: nat)
    requires Sound(e) && id in e.dispatches
    requires var d := e.dispatches[id]; d.status.CLAIMED? && d.holder == Driver(driver)
    ensures GiveBackStep(e, id, driver).1 ==
            if Overfills(e, e.dispatches[id], Owner(INDEPENDENT_DRIVER, driver)) then Err(Economic(CREDIT_BALANCE_LIMIT)) else Ok(Done)
    ensures GiveBackStep(e, id, driver).1.Err? ==> GiveBackStep(e, id, driver).0 == e
  {
    assert DispatchSound(e, e.dispatches[id]);
    RefundIsRefusedIff(e, id, Owner(INDEPENDENT_DRIVER, driver));
  }

  /** What closing these dispatches returns to one owner, all together. */
  function TotalReturned(e: Economy, rows: seq<nat>, owner: Owner): int {
    if rows == [] then 0
    else (if rows[0] in e.dispatches then -Owed(e.dispatches[rows[0]], owner) else 0) + TotalReturned(e, rows[1..], owner)
  }

  lemma {:induction false} ReturnsAreNotNegative(e: Economy, rows: seq<nat>, owner: Owner)
    ensures TotalReturned(e, rows, owner) >= 0
  {
    if rows != [] { ReturnsAreNotNegative(e, rows[1..], owner); }
  }

  lemma {:induction false} ReturnsOfOthersStay(e: Economy, after: Economy, rows: seq<nat>, owner: Owner)
    requires forall i :: 0 <= i < |rows| && rows[i] in e.dispatches ==>
               rows[i] in after.dispatches && after.dispatches[rows[i]] == e.dispatches[rows[i]]
    requires after.dispatches.Keys == e.dispatches.Keys
    ensures TotalReturned(after, rows, owner) == TotalReturned(e, rows, owner)
  {
    if rows != [] {
      forall i | 0 <= i < |rows[1..]| && rows[1..][i] in e.dispatches
        ensures rows[1..][i] in after.dispatches && after.dispatches[rows[1..][i]] == e.dispatches[rows[1..][i]]
      { assert rows[1..][i] == rows[i + 1]; }
      ReturnsOfOthersStay(e, after, rows[1..], owner);
    }
  }

  /** Closing one dispatch is refused for the same reason only, and otherwise pays back just its holder. */
  lemma CloseOneReturns(e: Economy, id: nat, a: nat)
    requires Sound(e) && id in e.dispatches && Operational(e.dispatches[id].status) && a < |e.ledger.accounts|
    ensures var d, owner := e.dispatches[id], e.ledger.accounts[a].owner;
            var (after, closed) := CloseOne(e, id);
            && (closed.Err? ==> closed == Err(Economic(CREDIT_BALANCE_LIMIT)))
            && (closed.Ok? ==>
                  && |after.ledger.accounts| == |e.ledger.accounts| && after.ledger.accounts[a].owner == owner
                  && after.ledger.accounts[a].balance == e.ledger.accounts[a].balance - Owed(d, owner))
            && (Owed(d, owner) != 0 && e.ledger.accounts[a].balance - Owed(d, owner) > MAX_CREDIT_BALANCE ==> closed.Err?)
  {
    var d, owner := e.dispatches[id], e.ledger.accounts[a].owner;
    assert DispatchSound(e, d);
    if !d.holder.Nobody? {
      var holder := OwnerOf(d.holder);
      RefundIsRefusedIff(e, id, holder);
      RefundReturnsWhatIsOwed(e, id, holder);
      OneAccountEach(e.ledger, a, owner);
    }
  }

  lemma OneAccountEach(l: Ledger, a: nat, owner: Owner)
    requires CreditLedger.Sound(l) && a < |l.accounts| && l.accounts[a].owner == owner
    ensures AccountOf(l.accounts, owner) == Some(a)
  {
    assert forall b :: 0 <= b < |l.accounts| && l.accounts[b].owner == owner ==> b == a;
  }

  /** The dispatch that could not be closed was held by an account that its refund alone would overfill. */
  lemma RefusedRowHasAnAccount(e: Economy, id: nat) returns (a: nat)
    requires Sound(e) && id in e.dispatches && Operational(e.dispatches[id].status) && CloseOne(e, id).1.Err?
    ensures a < |e.ledger.accounts|
    ensures e.ledger.accounts[a].balance - Owed(e.dispatches[id], e.ledger.accounts[a].owner) > MAX_CREDIT_BALANCE
  {
    var d := e.dispatches[id];
    assert DispatchSound(e, d);
    RefundIsRefusedIff(e, id, OwnerOf(d.holder));
    a := 0;
    match AccountOf(e.ledger.accounts, OwnerOf(d.holder))
    case Some(found) => a := found;
    case None => assert false;
  }

  ghost predicate SomeAccountOverfills(e: Economy, rows: seq<nat>) {
    exists a :: 0 <= a < |e.ledger.accounts| && AccountOverfills(e, rows, a)
  }

  predicate AccountOverfills(e: Economy, rows: seq<nat>, a: nat)
    requires a < |e.ledger.accounts|
  {
    e.ledger.accounts[a].balance + TotalReturned(e, rows, e.ledger.accounts[a].owner) > MAX_CREDIT_BALANCE
  }

  /** Closing row after row is refused exactly when all the returns to some account do not fit together. */
  lemma {:induction false} CloseAllIsRefusedIff(e: Economy, rows: seq<nat>)
    requires Sound(e)
    requires forall i :: 0 <= i < |rows| ==> rows[i] in e.dispatches && Operational(e.dispatches[rows[i]].status)
    requires forall i, j :: 0 <= i < j < |rows| ==> rows[i] != rows[j]
    ensures CloseAll(e, rows).1.Err? <==> SomeAccountOverfills(e, rows)
    ensures CloseAll(e, rows).1.Err? ==> CloseAll(e, rows).1.error == Economic(CREDIT_BALANCE_LIMIT)
    decreases |rows|
  {
    if rows == [] {
      assert !SomeAccountOverfills(e, rows);
    } else {
      var (next, closed) := CloseOne(e, rows[0]);
      if closed.Err? {
        var a := RefusedRowHasAnAccount(e, rows[0]);
        CloseOneReturns(e, rows[0], a);
        ReturnsAreNotNegative(e, rows[1..], e.ledger.accounts[a].owner);
        assert AccountOverfills(e, rows, a);
      } else {
        CloseOneIsSound(e, rows[0]);
        RestOfRows(e, rows);
        CloseAllIsRefusedIff(next, rows[1..]);
        SameOverfilling(e, rows);
      }
    }
  }

  lemma RestOfRows(e: Economy, rows: seq<nat>)
    requires rows != [] && rows[0] in e.dispatches && CloseOne(e, rows[0]).1.Ok?
    requires forall i :: 0 <= i < |rows| ==> rows[i] in e.dispatches && Operational(e.dispatches[rows[i]].status)
    requires forall i, j :: 0 <= i < j < |rows| ==> rows[i] != rows[j]
    ensures var next, rest := CloseOne(e, rows[0]).0, rows[1..];
            && next.dispatches.Keys == e.dispatches.Keys
            && (forall i :: 0 <= i < |rest| ==> rest[i] in next.dispatches && next.dispatches[rest[i]] == e.dispatches[rest[i]])
            && (forall i :: 0 <= i < |rest| ==> Operational(next.dispatches[rest[i]].status))
            && (forall i, j :: 0 <= i < j < |rest| ==> rest[i] != rest[j])
  {
    var next, rest := CloseOne(e, rows[0]).0, rows[1..];
    forall i | 0 <= i < |rest| ensures rest[i] in next.dispatches && next.dispatches[rest[i]] == e.dispatches[rest[i]] {
      assert rest[i] == rows[i + 1];
      CloseOneCloses(e, rows[0], rest[i]);
    }
  }

  lemma SameOverfilling(e: Economy, rows: seq<nat>)
    requires Sound(e) && rows != [] && rows[0] in e.dispatches && CloseOne(e, rows[0]).1.Ok?
    requires forall i :: 0 <= i < |rows| ==> rows[i] in e.dispatches && Operational(e.dispatches[rows[i]].status)
    requires forall i, j :: 0 <= i < j < |rows| ==> rows[i] != rows[j]
    ensures SomeAccountOverfills(CloseOne(e, rows[0]).0, rows[1..]) <==> SomeAccountOverfills(e, rows)
  {
    var next := CloseOne(e, rows[0]).0;
    RestOfRows(e, rows);
    if |e.ledger.accounts| > 0 { CloseOneReturns(e, rows[0], 0); }
    forall a | 0 <= a < |e.ledger.accounts|
      ensures |next.ledger.accounts| == |e.ledger.accounts| && AccountOverfills(next, rows[1..], a) == AccountOverfills(e, rows, a)
    {
      CloseOneReturns(e, rows[0], a);
      ReturnsOfOthersStay(e, next, rows[1..], e.ledger.accounts[a].owner);
    }
    if |e.ledger.accounts| == 0 { assert |next.ledger.accounts| == 0; }
  }

  /**
   * An official cancellation of a live request is refused exactly when the credits it returns to some
   * account, over all the dispatches it closes, would lift that balance above the maximum; then nothing
   * is cancelled at all.
   */
  lemma CancelIsRefusedIff(e: Economy, request: nat, rows: seq<nat>)
    requires Sound(e) && request !in e.cancelledRequests && RowsOf(e, request, rows)
    ensures CancelStep(e, request, rows).1 ==
            if SomeAccountOverfills(e, rows) then Err(Economic(CREDIT_BALANCE_LIMIT)) else Ok(Done)
    ensures SomeAccountOverfills(e, rows) ==> CancelStep(e, request, rows).0 == e
  {
    CloseAllIsRefusedIff(e, rows);
    CloseAllSucceedsWithDone(e, rows);
  }

  lemma {:induction false} CloseAllSucceedsWithDone(e: Economy, rows: seq<nat>)
    ensures CloseAll(e, rows).1.Ok? ==> CloseAll(e, rows).1 == Ok(Done)
    decreases |rows|
  {
    if rows != [] && rows[0] in e.dispatches && Operational(e.dispatches[rows[0]].status) {
      CloseAllSucceedsWithDone(CloseOne(e, rows[0]).0, rows[1..]);
    }
  }
}
