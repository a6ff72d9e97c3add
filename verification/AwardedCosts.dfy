/**
 * Policies and dispatch economics together: opening a dispatch freezes its costs from the policy versions
 * of that moment and publishes it with them, in one transaction; versions, claims, releases,
 * cancellations and deliveries then run in any order.
 */
module AwardedCosts {
  import opened Common
  import L = CreditLedger
  import D = DispatchPolicy
  import E = DispatchEconomy
  import P = CreditPolicies

  datatype World = World(registry: P.Registry, economy: E.Economy)

  const START := World(P.START, E.START)

  datatype Op =
    | Policy(policy: P.Op)
    | Economy(economy: E.Op)
    | Open(id: nat, request: nat, window: D.Window, service: P.Service, mode: P.ExecutionMode, distance: real, candidates: set<nat>)

  predicate Priced(snapshots: seq<P.Snapshot>, actor: L.ActorType) {
    var cost := P.CreditCostFor(snapshots, actor);
    cost.Some? && 1 <= cost.value <= L.MAX_CREDIT_MOVEMENT
  }

  function FrozenCosts(snapshots: seq<P.Snapshot>): map<L.ActorType, L.Credits> {
    map actor | actor in {L.PROVIDER, L.INDEPENDENT_DRIVER} && Priced(snapshots, actor) ::
      P.CreditCostFor(snapshots, actor).value
  }

  function OpenStep(w: World, op: Op): World
    requires op.Open?
  {
    var (registry, outcome) := P.OpenStep(w.registry, op.id, op.service, op.mode, op.distance);
    if outcome.Err? || op.id in w.economy.dispatches || op.request in w.economy.cancelledRequests then w
    else
      World(registry,
            E.PublishStep(w.economy, op.id, op.request, op.window, !op.mode.FLEET?, true,
                          FrozenCosts(registry.openings[op.id].snapshots), op.candidates))
  }

  /** Dispatches are published here with their costs; only those older than snapshots come without. */
  function Apply(w: World, op: Op): World {
    match op
    case Policy(policy) => if policy.Open? then w else w.(registry := P.Apply(w.registry, policy))
    case Economy(economy) =>
      if economy.Publish? && economy.monetized then w else w.(economy := E.Apply(w.economy, economy))
    case Open(_, _, _, _, _, _, _) => OpenStep(w, op)
  }

  function Run(w: World, ops: seq<Op>): World
    decreases |ops|
  {
    if ops == [] then w else Run(Apply(w, ops[0]), ops[1..])
  }

  // ---------------------------------------------------------------- the two halves stay linked

  /** A monetised dispatch carries the costs its opening froze. */
  ghost predicate Linked(w: World, id: nat) {
    id in w.economy.dispatches && w.economy.dispatches[id].monetized ==>
      id in w.registry.openings && w.economy.dispatches[id].snapshots == FrozenCosts(w.registry.openings[id].snapshots)
  }

  ghost predicate Sound(w: World) {
    P.Sound(w.registry) && E.Sound(w.economy) && forall id :: Linked(w, id)
  }

  lemma PolicyStepIsSound(r: P.Registry, op: P.Op)
    requires P.Sound(r)
    ensures P.Sound(P.Apply(r, op))
  {
    P.RunIsSound(r, [op]);
    assert P.Run(r, [op]) == P.Apply(r, op);
  }

  lemma WinningAddsNone(e: E.Economy, op: E.Op)
    requires op.Claim? || op.Take? || op.WinBeforeCharging?
    ensures E.Apply(e, op).dispatches.Keys == e.dispatches.Keys
  {}

  lemma LosingAddsNone(e: E.Economy, op: E.Op)
    requires op.Release? || op.GiveBack? || op.Deliver?
    ensures E.Apply(e, op).dispatches.Keys == e.dispatches.Keys
  {}

  lemma RestAddsNone(e: E.Economy, op: E.Op)
    requires op.NextRound? || op.Assign? || op.Reassign? || op.Unassign? || op.Tick? || op.NewAccount? || op.Approve? || op.Move?
    ensures E.Apply(e, op).dispatches.Keys == e.dispatches.Keys
  {}

  lemma EconomyStepAddsNone(e: E.Economy, op: E.Op)
    requires !op.Publish?
    ensures E.Apply(e, op).dispatches.Keys == e.dispatches.Keys
  {
    if op.Claim? || op.Take? || op.WinBeforeCharging? { WinningAddsNone(e, op); }
    else if op.Release? || op.GiveBack? || op.Deliver? { LosingAddsNone(e, op); }
    else if op.Cancel? { E.CloseAllAddsNone(e, op.rows); }
    else { RestAddsNone(e, op); }
  }

  lemma PolicyKeepsLinks(w: World, op: P.Op)
    requires Sound(w) && !op.Open?
    ensures forall id :: Linked(w.(registry := P.Apply(w.registry, op)), id)
  {
    forall id ensures Linked(w.(registry := P.Apply(w.registry, op)), id) {
      assert Linked(w, id);
      P.StepKeeps(w.registry, op, id, 0);
    }
  }

  lemma EconomyKeepsLinks(w: World, op: E.Op)
    requires Sound(w) && !(op.Publish? && op.monetized)
    ensures forall id :: Linked(w.(economy := E.Apply(w.economy, op)), id)
  {
    var after := w.(economy := E.Apply(w.economy, op));
    forall id ensures Linked(after, id) {
      assert Linked(w, id);
      if id in w.economy.dispatches {
        E.StepKeepsWhatIsFrozen(w.economy, op, id);
      } else if !op.Publish? {
        EconomyStepAddsNone(w.economy, op);
      }
    }
  }

  lemma OpenIsSound(w: World, op: Op)
    requires Sound(w) && op.Open?
    ensures Sound(OpenStep(w, op))
  {
    var after := OpenStep(w, op);
    if after != w {
      P.OpenIsSound(w.registry, op.id, op.service, op.mode, op.distance);
      var publish := E.Publish(op.id, op.request, op.window, !op.mode.FLEET?, true,
                               FrozenCosts(after.registry.openings[op.id].snapshots), op.candidates);
      E.PublishIsSound(w.economy, publish);
      forall id ensures Linked(after, id) { assert Linked(w, id); }
    }
  }

  lemma {:induction false} RunIsSound(w: World, ops: seq<Op>)
    requires Sound(w)
    ensures Sound(Run(w, ops))
    decreases |ops|
  {
    if ops != [] {
      match ops[0] {
        case Policy(policy) =>
          if !policy.Open? {
            PolicyStepIsSound(w.registry, policy);
            PolicyKeepsLinks(w, policy);
          }
        case Economy(economy) =>
          E.StepIsSound(w.economy, economy);
          if !(economy.Publish? && economy.monetized) { EconomyKeepsLinks(w, economy); }
        case Open(_, _, _, _, _, _, _) => OpenIsSound(w, ops[0]);
      }
      RunIsSound(Apply(w, ops[0]), ops[1..]);
    }
  }

  // ---------------------------------------------------------------- end to end

  lemma {:induction false} RunAppends(w: World, ops: seq<Op>, last: Op)
    ensures Run(w, ops + [last]) == Apply(Run(w, ops), last)
    decreases |ops|
  {
    if ops == [] {
      assert (ops + [last])[1..] == [];
    } else {
      assert (ops + [last])[1..] == ops[1..] + [last];
      RunAppends(Apply(w, ops[0]), ops[1..], last);
    }
  }

  /** Step j of the run opened the dispatch, freezing its costs from the registry just before it. */
  ghost predicate OpenedBy(ops: seq<Op>, j: nat, id: nat, o: P.Opening)
    requires j < |ops|
  {
    var before, op := Run(START, ops[..j]).registry, ops[j];
    && op.Open? && op.id == id && op.service == o.service && op.mode == o.mode && op.distance == o.distanceMeters
    && o.openedAt == before.clock && id !in before.openings
    && P.Snapshots(before.rows, o.service, o.distanceMeters, P.CreditActorsFor(o.mode)) == Ok(o.snapshots)
  }

  /** Every opening a run shows was made by one of its steps, and reads as that step wrote it. */
  lemma {:induction false} OpeningsWereOpened(ops: seq<Op>, id: nat) returns (j: nat)
    requires id in Run(START, ops).registry.openings
    ensures j < |ops| && OpenedBy(ops, j, id, Run(START, ops).registry.openings[id])
    decreases |ops|
  {
    var n := |ops| - 1;
    assert ops == ops[..n] + [ops[n]];
    RunAppends(START, ops[..n], ops[n]);
    var before := Run(START, ops[..n]);
    if id in before.registry.openings {
      OpeningsStay(before, ops[n], id);
      j := OpeningsWereOpened(ops[..n], id);
      assert ops[..n][..j] == ops[..j];
    } else {
      j := n;
    }
  }

  lemma OpeningsStay(w: World, op: Op, id: nat)
    requires id in w.registry.openings
    ensures id in Apply(w, op).registry.openings && Apply(w, op).registry.openings[id] == w.registry.openings[id]
  {
    if op.Policy? && !op.policy.Open? { P.StepKeeps(w.registry, op.policy, id, 0); }
  }

  /**
   * What step j of the run froze for a kind of actor: the cost, for the distance of the dispatch, under
   * the version that was ACTIVE in the registry just before that step.
   */
  ghost predicate FrozenBy(ops: seq<Op>, j: nat, id: nat, actor: L.ActorType, s: P.Snapshot) {
    && j < |ops| && id in Run(START, ops).registry.openings
    && var o := Run(START, ops).registry.openings[id];
       OpenedBy(ops, j, id, o) && s in o.snapshots && s.actor == actor && P.ActiveThen(Run(START, ops[..j]).registry.rows, o, s)
  }

  /**
   * Over any run of openings, new policy versions, claims, takes, releases, cancellations and deliveries,
   * the account that holds or delivered a dispatch under enforcement has netted minus what the policy
   * version active just before its opening charges for its distance, and every other account 0.
   */
  lemma HoldersPayTheVersionInForce(ops: seq<Op>, a: nat, id: nat)
    ensures var e := Run(START, ops).economy;
            a < |e.ledger.accounts| && id in e.dispatches ==>
              var d, owner := e.dispatches[id], e.ledger.accounts[a].owner;
              if E.Holds(d, owner) && E.EnforcementMode(d, owner).ENFORCED?
              then exists j, s :: FrozenBy(ops, j, id, owner.actorType, s) && L.Net(e.ledger.entries, a, id) == -s.credits
              else L.Net(e.ledger.entries, a, id) == 0
  {
    StartIsSound();
    RunIsSound(START, ops);
    var w := Run(START, ops);
    if a < |w.economy.ledger.accounts| && id in w.economy.dispatches {
      var d, owner := w.economy.dispatches[id], w.economy.ledger.accounts[a].owner;
      var i := HolderPays(w, a, id);
      if E.Holds(d, owner) && E.EnforcementMode(d, owner).ENFORCED? {
        var o := w.registry.openings[id];
        var j := OpeningsWereOpened(ops, id);
        P.SnapshotsAreOfActives(Run(START, ops[..j]).registry.rows, o.service, o.distanceMeters, P.CreditActorsFor(o.mode), i);
        assert FrozenBy(ops, j, id, owner.actorType, o.snapshots[i]);
      }
    }
  }

  lemma StartIsSound()
    ensures Sound(START)
  {
    assert E.Sound(E.START);
  }

  lemma HolderPays(w: World, a: nat, id: nat) returns (i: nat)
    requires Sound(w) && a < |w.economy.ledger.accounts| && id in w.economy.dispatches
    ensures var e := w.economy;
            var d, owner := e.dispatches[id], e.ledger.accounts[a].owner;
            if E.Holds(d, owner) && E.EnforcementMode(d, owner).ENFORCED?
            then
              && id in w.registry.openings && i < |w.registry.openings[id].snapshots|
              && w.registry.openings[id].snapshots[i].actor == owner.actorType
              && L.Net(e.ledger.entries, a, id) == -w.registry.openings[id].snapshots[i].credits
            else L.Net(e.ledger.entries, a, id) == 0
  {
    var e := w.economy;
    var d, owner := e.dispatches[id], e.ledger.accounts[a].owner;
    assert E.Settled(e, a, id) && E.DispatchSound(e, d) && Linked(w, id);
    i := 0;
    if E.Holds(d, owner) && E.EnforcementMode(d, owner).ENFORCED? {
      var o := w.registry.openings[id];
      P.FoundCost(o.snapshots, owner.actorType);
      i :| 0 <= i < |o.snapshots| && o.snapshots[i].actor == owner.actorType
           && o.snapshots[i].credits == P.CreditCostFor(o.snapshots, owner.actorType).value;
    }
  }
}
