/**
 * Credit policy versions and the costs frozen from them. Each pair of service and kind of actor has its
 * own line of versions, written under one exclusive lock; opening a dispatch reads the ACTIVE version of
 * every actor that may win it under the same lock held shared, and freezes what it costs.
 *
 * The application clock that stamps versions is assumed never to step back. A row's identifier is its
 * position in the table.
 */
module CreditPolicies {
  import opened Common
  import opened CreditPolicyEngine
  import CreditLedger

  type Service = nat
  type ActorType = CreditLedger.ActorType

  datatype PolicyStatus = ACTIVE | INACTIVE
  datatype PolicyRow = PolicyRow(
    service: Service, actor: ActorType, version: nat, status: PolicyStatus, policy: Policy,
    effectiveFrom: nat, effectiveUntil: Option<nat>)

  datatype Snapshot = Snapshot(
    actor: ActorType, service: Service, policyId: nat, policyVersion: nat, distanceMeters: real, cost: Cost, credits: int)

  datatype ExecutionMode = FLEET | INDEPENDENT | BOTH

  datatype Opening = Opening(service: Service, mode: ExecutionMode, distanceMeters: real, openedAt: nat, snapshots: seq<Snapshot>)

  datatype Registry = Registry(clock: nat, rows: seq<PolicyRow>, openings: map<nat, Opening>)

  const START := Registry(0, [], map[])

  datatype Error =
    | INVALID(errors: seq<ConfigError>) | NOT_FOUND | CREDIT_POLICY_EXISTS | CREDIT_POLICY_VERSION_CONFLICT
    | POLICY_UNAVAILABLE | DISPATCH_EXISTS | Costing(code: CostError)

  // ---------------------------------------------------------------- versions

  predicate Of(row: PolicyRow, service: Service, actor: ActorType) { row.service == service && row.actor == actor }

  function FindActive(rows: seq<PolicyRow>, service: Service, actor: ActorType): (r: Option<nat>)
    ensures r.Some? ==> r.value < |rows| && Of(rows[r.value], service, actor) && rows[r.value].status.ACTIVE?
    ensures r.None? ==> forall i :: 0 <= i < |rows| ==> !(Of(rows[i], service, actor) && rows[i].status.ACTIVE?)
  {
    if rows == [] then None
    else
      var n := |rows| - 1;
      if Of(rows[n], service, actor) && rows[n].status.ACTIVE? then Some(n) else FindActive(rows[..n], service, actor)
  }

  /** The versions of one line, oldest first. */
  function Line(rows: seq<PolicyRow>, service: Service, actor: ActorType): seq<PolicyRow> {
    if rows == [] then []
    else
      var rest, last := Line(rows[..|rows| - 1], service, actor), rows[|rows| - 1];
      if Of(last, service, actor) then rest + [last] else rest
  }

  function MaxVersion(rows: seq<PolicyRow>, service: Service, actor: ActorType): nat {
    if rows == [] then 0
    else
      var rest, last := MaxVersion(rows[..|rows| - 1], service, actor), rows[|rows| - 1];
      if Of(last, service, actor) then Max(rest, last.version) else rest
  }

  function NewRow(service: Service, actor: ActorType, version: nat, policy: Policy, now: nat): PolicyRow {
    PolicyRow(service, actor, version, ACTIVE, policy, now, None)
  }

  function FirstVersion(r: Registry, service: Service, actor: ActorType, policy: Policy): (Registry, Result<nat, Error>) {
    if exists i :: 0 <= i < |r.rows| && Of(r.rows[i], service, actor) then (r, Err(CREDIT_POLICY_EXISTS))
    else (r.(rows := r.rows + [NewRow(service, actor, 1, policy, r.clock)]), Ok(|r.rows|))
  }

  function CreateInitialStep(r: Registry, service: Service, actor: ActorType, c: Config): (Registry, Result<nat, Error>) {
    if ConfigErrors(c) != [] then (r, Err(INVALID(ConfigErrors(c)))) else FirstVersion(r, service, actor, PolicyOf(c))
  }

  function Superseded(row: PolicyRow, now: nat): PolicyRow { row.(status := INACTIVE, effectiveUntil := Some(now)) }

  function NextVersion(r: Registry, base: nat, policy: Policy): (Registry, Result<nat, Error>) {
    if base >= |r.rows| then (r, Err(NOT_FOUND))
    else
      var service, actor := r.rows[base].service, r.rows[base].actor;
      if FindActive(r.rows, service, actor) != Some(base) then (r, Err(CREDIT_POLICY_VERSION_CONFLICT))
      else
        var next := MaxVersion(r.rows, service, actor) + 1;
        (r.(rows := r.rows[base := Superseded(r.rows[base], r.clock)] + [NewRow(service, actor, next, policy, r.clock)]),
         Ok(|r.rows|))
  }

  function CreateVersionStep(r: Registry, base: nat, c: Config): (Registry, Result<nat, Error>) {
    if ConfigErrors(c) != [] then (r, Err(INVALID(ConfigErrors(c)))) else NextVersion(r, base, PolicyOf(c))
  }

  // ---------------------------------------------------------------- snapshots

  function CreditActorsFor(mode: ExecutionMode): seq<ActorType> {
    (if mode.FLEET? || mode.BOTH? then [CreditLedger.PROVIDER] else [])
    + (if mode.INDEPENDENT? || mode.BOTH? then [CreditLedger.INDEPENDENT_DRIVER] else [])
  }

  function ResolveActive(rows: seq<PolicyRow>, service: Service, actor: ActorType): Result<nat, Error> {
    var found := FindActive(rows, service, actor);
    if found.None? then Err(POLICY_UNAVAILABLE) else Ok(found.value)
  }

  function SnapshotFor(rows: seq<PolicyRow>, service: Service, distance: real, actor: ActorType): Result<Snapshot, Error> {
    var id := FindActive(rows, service, actor);
    if id.None? then Err(POLICY_UNAVAILABLE)
    else
      var cost := CalculateCreditCost(rows[id.value].policy, distance);
      if cost.Err? then Err(Costing(cost.error))
      else if cost.value.credits < 1 then Err(Costing(CREDIT_COST_OUT_OF_RANGE))
      else Ok(Snapshot(actor, service, id.value, rows[id.value].version, distance, cost.value, cost.value.credits))
  }

  /** One snapshot per actor, in order; the first failure abandons them all. */
  function Snapshots(rows: seq<PolicyRow>, service: Service, distance: real, actors: seq<ActorType>): Result<seq<Snapshot>, Error> {
    if actors == [] then Ok([])
    else
      var n := |actors| - 1;
      var earlier := Snapshots(rows, service, distance, actors[..n]);
      if earlier.Err? then earlier
      else
        var one := SnapshotFor(rows, service, distance, actors[n]);
        if one.Err? then Err(one.error) else Ok(earlier.value + [one.value])
  }

  /** The cost an actor would be charged, or none for a dispatch older than snapshots. */
  function CreditCostFor(snapshots: seq<Snapshot>, actor: ActorType): Option<int> {
    if snapshots == [] then None
    else if snapshots[0].actor == actor then Some(snapshots[0].credits)
    else CreditCostFor(snapshots[1..], actor)
  }

  function OpenStep(r: Registry, id: nat, service: Service, mode: ExecutionMode, distance: real): (Registry, Result<(), Error>) {
    var snapshots := Snapshots(r.rows, service, distance, CreditActorsFor(mode));
    if id in r.openings then (r, Err(DISPATCH_EXISTS))
    else if snapshots.Err? then (r, Err(snapshots.error))
    else (r.(openings := r.openings[id := Opening(service, mode, distance, r.clock, snapshots.value)]), Ok(()))
  }

  datatype Op =
    | Tick(to: nat)
    | CreateInitial(service: Service, actor: ActorType, config: Config)
    | CreateVersion(base: nat, config: Config)
    | Open(id: nat, service: Service, mode: ExecutionMode, distance: real)

  function Apply(r: Registry, op: Op): Registry {
    match op
    case Tick(to) => if to < r.clock then r else r.(clock := to)
    case CreateInitial(service, actor, config) => CreateInitialStep(r, service, actor, config).0
    case CreateVersion(base, config) => CreateVersionStep(r, base, config).0
    case Open(id, service, mode, distance) => OpenStep(r, id, service, mode, distance).0
  }

  function Run(r: Registry, ops: seq<Op>): Registry
    decreases |ops|
  {
    if ops == [] then r else Run(Apply(r, ops[0]), ops[1..])
  }

  // ---------------------------------------------------------------- the invariant

  /** One version against the next: 1..n in order, each ending when the next begins, the last still open. */
  ghost predicate InPlace(line: seq<PolicyRow>, k: nat, clock: nat)
    requires k < |line|
  {
    && line[k].version == k + 1 && line[k].effectiveFrom <= clock
    && (line[k].status.ACTIVE? <==> k == |line| - 1)
    && (k == |line| - 1 ==> line[k].effectiveUntil.None?)
    && (k < |line| - 1 ==>
          line[k].effectiveUntil == Some(line[k + 1].effectiveFrom) && line[k].effectiveFrom <= line[k + 1].effectiveFrom)
  }

  ghost predicate Timeline(line: seq<PolicyRow>, clock: nat) {
    forall k :: 0 <= k < |line| ==> InPlace(line, k, clock)
  }

  /** A new version appended to a timeline: the old last one, if any, is closed at the same instant. */
  lemma TimelineGrows(line: seq<PolicyRow>, row: PolicyRow, clock: nat)
    requires Timeline(line, clock)
    requires row.version == |line| + 1 && row.effectiveFrom == clock && row.status.ACTIVE? && row.effectiveUntil.None?
    ensures line == [] ==> Timeline([row], clock)
    ensures line != [] ==> Timeline(line[..|line| - 1] + [Superseded(line[|line| - 1], clock)] + [row], clock)
  {
    if line != [] {
      var n := |line| - 1;
      var after := line[..n] + [Superseded(line[n], clock)] + [row];
      forall k | 0 <= k < |after| ensures InPlace(after, k, clock) {
        if k <= n { assert InPlace(line, k, clock); }
      }
    }
  }

  /** A snapshot shows what its version, in force when the dispatch opened, charges for its distance. */
  ghost predicate Frozen(rows: seq<PolicyRow>, o: Opening, s: Snapshot) {
    && s.policyId < |rows| && s.service == o.service && s.distanceMeters == o.distanceMeters
    && var row := rows[s.policyId];
       && Of(row, o.service, s.actor) && row.version == s.policyVersion
       && row.effectiveFrom <= o.openedAt && (row.effectiveUntil.Some? ==> o.openedAt <= row.effectiveUntil.value)
       && CalculateCreditCost(row.policy, o.distanceMeters) == Ok(s.cost) && s.credits == s.cost.credits
       && 1 <= s.credits <= MAX_POLICY_CREDITS
  }

  ghost predicate OpeningSound(rows: seq<PolicyRow>, o: Opening, clock: nat) {
    && o.openedAt <= clock
    && |o.snapshots| == |CreditActorsFor(o.mode)|
    && (forall i :: 0 <= i < |o.snapshots| ==> o.snapshots[i].actor == CreditActorsFor(o.mode)[i] && Frozen(rows, o, o.snapshots[i]))
  }

  ghost predicate Sound(r: Registry) {
    && (forall service, actor :: Timeline(Line(r.rows, service, actor), r.clock))
    && (forall id :: id in r.openings ==> OpeningSound(r.rows, r.openings[id], r.clock))
  }

  // ---------------------------------------------------------------- lines

  lemma {:induction false} LineOf(rows: seq<PolicyRow>, service: Service, actor: ActorType)
    ensures forall k :: 0 <= k < |Line(rows, service, actor)| ==> Of(Line(rows, service, actor)[k], service, actor)
    ensures forall i :: 0 <= i < |rows| && Of(rows[i], service, actor) ==> rows[i] in Line(rows, service, actor)
  {
    if rows != [] { LineOf(rows[..|rows| - 1], service, actor); }
  }

  ghost predicate EarlierAreClosed(line: seq<PolicyRow>) {
    forall k :: 0 <= k < |line| - 1 ==> line[k].status.INACTIVE?
  }

  lemma PrefixIsClosed(earlier: seq<PolicyRow>, last: PolicyRow)
    requires EarlierAreClosed(earlier + [last])
    ensures forall row :: row in earlier ==> row.status.INACTIVE?
  {
    forall k | 0 <= k < |earlier| ensures earlier[k].status.INACTIVE? {
      assert (earlier + [last])[k] == earlier[k];
    }
  }

  /** The active row is the newest of its line, so closing it rewrites the end of the line only. */
  lemma {:induction false} ActiveIsNewest(rows: seq<PolicyRow>, service: Service, actor: ActorType, base: nat, closed: PolicyRow)
    requires EarlierAreClosed(Line(rows, service, actor))
    requires FindActive(rows, service, actor) == Some(base) && Of(closed, service, actor)
    ensures var line := Line(rows, service, actor);
            && line != [] && line[|line| - 1] == rows[base]
            && Line(rows[base := closed], service, actor) == line[..|line| - 1] + [closed]
  {
    var n := |rows| - 1;
    if base == n {
      assert rows[base := closed][..n] == rows[..n];
    } else {
      assert rows[base := closed][..n] == rows[..n][base := closed];
      var earlier := Line(rows[..n], service, actor);
      if Of(rows[n], service, actor) {
        // Then everything earlier is closed, the active row among it.
        LineOf(rows[..n], service, actor);
        assert rows[..n][base] in earlier;
        assert Line(rows, service, actor) == earlier + [rows[n]];
        PrefixIsClosed(earlier, rows[n]);
      } else {
        assert Line(rows, service, actor) == earlier;
        ActiveIsNewest(rows[..n], service, actor, base, closed);
      }
    }
  }

  lemma TimelineCloses(line: seq<PolicyRow>, clock: nat)
    requires Timeline(line, clock)
    ensures EarlierAreClosed(line)
    ensures forall k :: 0 <= k < |line| ==> line[k].version == k + 1
    ensures line != [] ==> line[|line| - 1].effectiveUntil.None? && line[|line| - 1].status.ACTIVE?
                           && line[|line| - 1].effectiveFrom <= clock
  {
    forall k | 0 <= k < |line| ensures line[k].version == k + 1 && (k < |line| - 1 ==> line[k].status.INACTIVE?) {
      assert InPlace(line, k, clock);
    }
    if line != [] { assert InPlace(line, |line| - 1, clock); }
  }

  lemma {:induction false} OtherLineStays(rows: seq<PolicyRow>, service: Service, actor: ActorType, base: nat, closed: PolicyRow)
    requires base < |rows| && !Of(rows[base], service, actor) && !Of(closed, service, actor)
    ensures Line(rows[base := closed], service, actor) == Line(rows, service, actor)
  {
    var n := |rows| - 1;
    if base == n {
      assert rows[base := closed][..n] == rows[..n];
    } else {
      assert rows[base := closed][..n] == rows[..n][base := closed];
      OtherLineStays(rows[..n], service, actor, base, closed);
    }
  }

  lemma {:induction false} MaxVersionIsLength(rows: seq<PolicyRow>, service: Service, actor: ActorType)
    requires forall k :: 0 <= k < |Line(rows, service, actor)| ==> Line(rows, service, actor)[k].version == k + 1
    ensures MaxVersion(rows, service, actor) == |Line(rows, service, actor)|
  {
    if rows != [] {
      var rest, line := Line(rows[..|rows| - 1], service, actor), Line(rows, service, actor);
      forall k | 0 <= k < |rest| ensures rest[k].version == k + 1 { assert line[k] == rest[k]; }
      MaxVersionIsLength(rows[..|rows| - 1], service, actor);
      if Of(rows[|rows| - 1], service, actor) { assert line[|rest|] == rows[|rows| - 1]; }
    }
  }

  // ---------------------------------------------------------------- every step

  lemma LineGrows(rows: seq<PolicyRow>, row: PolicyRow, service: Service, actor: ActorType)
    ensures Line(rows + [row], service, actor) == Line(rows, service, actor) + if Of(row, service, actor) then [row] else []
  {
    assert (rows + [row])[..|rows|] == rows;
  }

  lemma OpeningsStay(r: Registry, rows: seq<PolicyRow>)
    requires Sound(r) && |r.rows| <= |rows|
    requires forall i :: 0 <= i < |r.rows| ==>
               rows[i] == r.rows[i] || (r.rows[i].effectiveUntil.None? && rows[i] == Superseded(r.rows[i], r.clock))
    ensures forall id :: id in r.openings ==> OpeningSound(rows, r.openings[id], r.clock)
  {
    forall id | id in r.openings ensures OpeningSound(rows, r.openings[id], r.clock) {
      var o := r.openings[id];
      assert OpeningSound(r.rows, o, r.clock);
      forall i | 0 <= i < |o.snapshots| ensures Frozen(rows, o, o.snapshots[i]) { assert Frozen(r.rows, o, o.snapshots[i]); }
    }
  }

  lemma FirstVersionIsSound(r: Registry, row: PolicyRow)
    requires Sound(r) && forall i :: 0 <= i < |r.rows| ==> !Of(r.rows[i], row.service, row.actor)
    requires row.version == 1 && row.effectiveFrom == r.clock && row.status.ACTIVE? && row.effectiveUntil.None?
    ensures Sound(r.(rows := r.rows + [row]))
  {
    var after := r.(rows := r.rows + [row]);
    forall s, a ensures Timeline(Line(after.rows, s, a), r.clock) {
      assert Timeline(Line(r.rows, s, a), r.clock);
      LineGrows(r.rows, row, s, a);
      if Of(row, s, a) {
        NoLine(r.rows, s, a);
        TimelineGrows([], row, r.clock);
      }
    }
    OpeningsStay(r, after.rows);
  }

  lemma {:induction false} NoLine(rows: seq<PolicyRow>, service: Service, actor: ActorType)
    requires forall i :: 0 <= i < |rows| ==> !Of(rows[i], service, actor)
    ensures Line(rows, service, actor) == []
  {
    if rows != [] { NoLine(rows[..|rows| - 1], service, actor); }
  }

  lemma NextTimeline(r: Registry, base: nat, row: PolicyRow, s: Service, a: ActorType)
    requires Sound(r) && FindActive(r.rows, row.service, row.actor) == Some(base)
    requires row.version == MaxVersion(r.rows, row.service, row.actor) + 1
    requires row.effectiveFrom == r.clock && row.status.ACTIVE? && row.effectiveUntil.None?
    ensures Timeline(Line(r.rows[base := Superseded(r.rows[base], r.clock)] + [row], s, a), r.clock)
  {
    var closed := Superseded(r.rows[base], r.clock);
    var line := Line(r.rows, s, a);
    LineGrows(r.rows[base := closed], row, s, a);
    assert Timeline(line, r.clock);
    if Of(row, s, a) {
      TimelineCloses(line, r.clock);
      ActiveIsNewest(r.rows, s, a, base, closed);
      MaxVersionIsLength(r.rows, s, a);
      TimelineGrows(line, row, r.clock);
    } else {
      OtherLineStays(r.rows, s, a, base, closed);
    }
  }

  lemma NextVersionIsSound(r: Registry, base: nat, row: PolicyRow)
    requires Sound(r) && FindActive(r.rows, row.service, row.actor) == Some(base)
    requires row.version == MaxVersion(r.rows, row.service, row.actor) + 1
    requires row.effectiveFrom == r.clock && row.status.ACTIVE? && row.effectiveUntil.None?
    ensures Sound(r.(rows := r.rows[base := Superseded(r.rows[base], r.clock)] + [row]))
  {
    var after := r.(rows := r.rows[base := Superseded(r.rows[base], r.clock)] + [row]);
    forall s, a ensures Timeline(Line(after.rows, s, a), after.clock) { NextTimeline(r, base, row, s, a); }
    ActiveIsOpen(r, base, row.service, row.actor);
    OpeningsStay(r, after.rows);
  }

  lemma ActiveIsOpen(r: Registry, base: nat, service: Service, actor: ActorType)
    requires Sound(r) && FindActive(r.rows, service, actor) == Some(base)
    ensures r.rows[base].effectiveUntil.None? && r.rows[base].effectiveFrom <= r.clock
  {
    assert Timeline(Line(r.rows, service, actor), r.clock);
    TimelineCloses(Line(r.rows, service, actor), r.clock);
    ActiveIsNewest(r.rows, service, actor, base, r.rows[base]);
  }

  lemma SnapshotIsFrozen(r: Registry, service: Service, distance: real, actor: ActorType, o: Opening)
    requires Sound(r) && SnapshotFor(r.rows, service, distance, actor).Ok?
    requires o.service == service && o.distanceMeters == distance && o.openedAt == r.clock
    ensures var s := SnapshotFor(r.rows, service, distance, actor).value; s.actor == actor && Frozen(r.rows, o, s)
  {
    ActiveIsOpen(r, FindActive(r.rows, service, actor).value, service, actor);
  }

  lemma {:induction false} SnapshotsAreFrozen(r: Registry, service: Service, distance: real, actors: seq<ActorType>, o: Opening)
    requires Sound(r) && Snapshots(r.rows, service, distance, actors).Ok?
    requires o.service == service && o.distanceMeters == distance && o.openedAt == r.clock
    ensures var ss := Snapshots(r.rows, service, distance, actors).value;
            && |ss| == |actors|
            && forall i :: 0 <= i < |ss| ==> ss[i].actor == actors[i] && Frozen(r.rows, o, ss[i])
  {
    if actors != [] {
      SnapshotsAreFrozen(r, service, distance, actors[..|actors| - 1], o);
      SnapshotIsFrozen(r, service, distance, actors[|actors| - 1], o);
    }
  }

  lemma AddOpening(r: Registry, id: nat, o: Opening)
    requires Sound(r) && OpeningSound(r.rows, o, r.clock)
    ensures Sound(r.(openings := r.openings[id := o]))
  {}

  lemma OpenIsSound(r: Registry, id: nat, service: Service, mode: ExecutionMode, distance: real)
    requires Sound(r)
    ensures Sound(OpenStep(r, id, service, mode, distance).0)
  {
    var after := OpenStep(r, id, service, mode, distance).0;
    if after != r {
      var o := after.openings[id];
      SnapshotsAreFrozen(r, service, distance, CreditActorsFor(mode), o);
      assert OpeningSound(r.rows, o, r.clock);
      AddOpening(r, id, o);
    }
  }

  lemma TimelineLasts(line: seq<PolicyRow>, clock: nat, later: nat)
    requires Timeline(line, clock) && clock <= later
    ensures Timeline(line, later)
  {
    forall k | 0 <= k < |line| ensures InPlace(line, k, later) { assert InPlace(line, k, clock); }
  }

  lemma TickIsSound(r: Registry, to: nat)
    requires Sound(r)
    ensures Sound(Apply(r, Tick(to)))
  {
    var after := Apply(r, Tick(to));
    forall s, a ensures Timeline(Line(after.rows, s, a), after.clock) { TimelineLasts(Line(r.rows, s, a), r.clock, after.clock); }
    forall id | id in r.openings ensures OpeningSound(after.rows, r.openings[id], after.clock) {
      assert OpeningSound(r.rows, r.openings[id], r.clock);
    }
  }

  lemma InitialIsSound(r: Registry, service: Service, actor: ActorType, policy: Policy)
    requires Sound(r)
    ensures Sound(FirstVersion(r, service, actor, policy).0)
  {
    if FirstVersion(r, service, actor, policy).1.Ok? { FirstVersionIsSound(r, NewRow(service, actor, 1, policy, r.clock)); }
  }

  lemma NextIsSound(r: Registry, base: nat, policy: Policy)
    requires Sound(r)
    ensures Sound(NextVersion(r, base, policy).0)
  {
    if NextVersion(r, base, policy).1.Ok? {
      var service, actor := r.rows[base].service, r.rows[base].actor;
      NextVersionIsSound(r, base, NewRow(service, actor, MaxVersion(r.rows, service, actor) + 1, policy, r.clock));
    }
  }

  lemma {:induction false} RunIsSound(r: Registry, ops: seq<Op>)
    requires Sound(r)
    ensures Sound(Run(r, ops))
    decreases |ops|
  {
    if ops != [] {
      match ops[0] {
        case Tick(to) => TickIsSound(r, to);
        case CreateInitial(service, actor, c) => InitialIsSound(r, service, actor, PolicyOf(c));
        case CreateVersion(base, c) => NextIsSound(r, base, PolicyOf(c));
        case Open(id, service, mode, distance) => OpenIsSound(r, id, service, mode, distance);
      }
      RunIsSound(Apply(r, ops[0]), ops[1..]);
    }
  }

  // ---------------------------------------------------------------- main results

  predicate Governs(row: PolicyRow, t: nat) {
    row.effectiveFrom <= t && (row.effectiveUntil.None? || t < row.effectiveUntil.value)
  }

  /** In a timeline, the version in force at t is the last one that has begun. */
  lemma {:induction false} InForce(line: seq<PolicyRow>, clock: nat, t: nat, n: nat) returns (k: nat)
    requires Timeline(line, clock) && 0 < n <= |line| && line[0].effectiveFrom <= t
    requires n == |line| || t < line[n].effectiveFrom
    ensures k < n && Governs(line[k], t)
  {
    assert InPlace(line, n - 1, clock);
    if t >= line[n - 1].effectiveFrom {
      k := n - 1;
    } else {
      k := InForce(line, clock, t, n - 1);
    }
  }

  lemma {:induction false} LaterBeginAfter(line: seq<PolicyRow>, clock: nat, j: nat, k: nat)
    requires Timeline(line, clock) && j < k < |line|
    ensures line[j].effectiveUntil.Some? && line[j].effectiveUntil.value <= line[k].effectiveFrom
    decreases k - j
  {
    assert InPlace(line, j, clock);
    if j + 1 < k {
      assert InPlace(line, j + 1, clock);
      LaterBeginAfter(line, clock, j + 1, k);
    }
  }

  lemma OneGoverns(line: seq<PolicyRow>, clock: nat, t: nat)
    requires Timeline(line, clock) && line != [] && line[0].effectiveFrom <= t
    ensures exists k :: 0 <= k < |line| && Governs(line[k], t)
              && forall j :: 0 <= j < |line| && Governs(line[j], t) ==> j == k
  {
    var k := InForce(line, clock, t, |line|);
    forall j | 0 <= j < |line| && Governs(line[j], t) ensures j == k {
      if j < k { LaterBeginAfter(line, clock, j, k); } else if k < j { LaterBeginAfter(line, clock, k, j); }
    }
  }

  /**
   * After any run, the versions of a line are 1..n in order with exactly the last one ACTIVE, and at every
   * instant from the start of version 1 on exactly one version is in force.
   */
  lemma OneVersionGoverns(ops: seq<Op>, service: Service, actor: ActorType, t: nat)
    ensures var r := Run(START, ops);
            var line := Line(r.rows, service, actor);
            && Timeline(line, r.clock)
            && (line != [] && line[0].effectiveFrom <= t ==>
                  exists k :: 0 <= k < |line| && Governs(line[k], t)
                    && forall j :: 0 <= j < |line| && Governs(line[j], t) ==> j == k)
  {
    RunIsSound(START, ops);
    var r := Run(START, ops);
    var line := Line(r.rows, service, actor);
    assert Timeline(line, r.clock);
    if line != [] && line[0].effectiveFrom <= t { OneGoverns(line, r.clock, t); }
  }

  ghost predicate ResolvesNewest(rows: seq<PolicyRow>, service: Service, actor: ActorType) {
    var line, active := Line(rows, service, actor), ResolveActive(rows, service, actor);
    && (active.Ok? <==> line != [])
    && (active.Ok? ==> rows[active.value] == line[|line| - 1])
  }

  /** Resolving the active policy finds the newest version of a line, and fails exactly when it has none. */
  lemma ActiveIsTheNewestVersion(ops: seq<Op>, service: Service, actor: ActorType)
    ensures ResolvesNewest(Run(START, ops).rows, service, actor)
  {
    RunIsSound(START, ops);
    NewestIsActive(Run(START, ops), service, actor);
  }

  lemma NewestIsActive(r: Registry, service: Service, actor: ActorType)
    requires Sound(r)
    ensures ResolvesNewest(r.rows, service, actor)
  {
    var line := Line(r.rows, service, actor);
    assert Timeline(line, r.clock);
    TimelineCloses(line, r.clock);
    var active := FindActive(r.rows, service, actor);
    if active.Some? {
      ActiveIsNewest(r.rows, service, actor, active.value, r.rows[active.value]);
    } else {
      NewestIsARow(r.rows, service, actor);
    }
  }

  lemma {:induction false} NewestIsARow(rows: seq<PolicyRow>, service: Service, actor: ActorType)
    ensures var line := Line(rows, service, actor);
            line != [] ==> exists i :: 0 <= i < |rows| && rows[i] == line[|line| - 1] && Of(rows[i], service, actor)
  {
    if rows != [] {
      var n := |rows| - 1;
      if Of(rows[n], service, actor) {
        assert rows[n] == Line(rows, service, actor)[|Line(rows, service, actor)| - 1];
      } else {
        NewestIsARow(rows[..n], service, actor);
        var line := Line(rows[..n], service, actor);
        if line != [] {
          var i :| 0 <= i < n && rows[..n][i] == line[|line| - 1] && Of(rows[..n][i], service, actor);
          assert rows[i] == line[|line| - 1];
        }
      }
    }
  }

  /**
   * After any run, every opened dispatch holds one snapshot per kind of actor that may win it, each with 1
   * to 1,000,000 credits: what the version in force at the opening charges for the quoted distance, the
   * one that was ACTIVE in the registry on which the dispatch was opened.
   */
  lemma SnapshotsFreezeTheActiveVersion(ops: seq<Op>, id: nat, actor: ActorType)
    ensures var r := Run(START, ops);
            id in r.openings ==>
              var o := r.openings[id];
              && OpeningSound(r.rows, o, r.clock)
              && (actor in CreditActorsFor(o.mode) <==> CreditCostFor(o.snapshots, actor).Some?)
              && (actor in CreditActorsFor(o.mode) ==> 1 <= CreditCostFor(o.snapshots, actor).value <= MAX_POLICY_CREDITS)
              && exists k :: 0 <= k < |ops| && OpenedBy(ops, k, id, o)
                             && forall i :: 0 <= i < |o.snapshots| ==> ActiveThen(Run(START, ops[..k]).rows, o, o.snapshots[i])
  {
    RunIsSound(START, ops);
    var r := Run(START, ops);
    if id in r.openings {
      var o := r.openings[id];
      assert OpeningSound(r.rows, o, r.clock);
      FoundCost(o.snapshots, actor);
      var step := OpeningsWereOpened(ops, id);
      forall i | 0 <= i < |o.snapshots| ensures ActiveThen(Run(START, ops[..step]).rows, o, o.snapshots[i]) {
        SnapshotsAreOfActives(Run(START, ops[..step]).rows, o.service, o.distanceMeters, CreditActorsFor(o.mode), i);
      }
      if actor in CreditActorsFor(o.mode) {
        var k :| 0 <= k < |CreditActorsFor(o.mode)| && CreditActorsFor(o.mode)[k] == actor;
        assert o.snapshots[k].actor == actor;
      }
    }
  }

  lemma {:induction false} RunAppends(r: Registry, first: seq<Op>, rest: seq<Op>)
    ensures Run(r, first + rest) == Run(Run(r, first), rest)
    decreases |first|
  {
    if first == [] {
      assert first + rest == rest;
    } else {
      assert (first + rest)[1..] == first[1..] + rest;
      RunAppends(Apply(r, first[0]), first[1..], rest);
    }
  }

  /** Opened by this step of the run, on the registry just before it. */
  ghost predicate OpenedBy(ops: seq<Op>, k: nat, id: nat, o: Opening)
    requires k < |ops|
  {
    var before := Run(START, ops[..k]);
    && ops[k] == Open(id, o.service, o.mode, o.distanceMeters) && o.openedAt == before.clock
    && id !in before.openings
    && Snapshots(before.rows, o.service, o.distanceMeters, CreditActorsFor(o.mode)) == Ok(o.snapshots)
  }

  /** The snapshot is of the version that was ACTIVE among these rows, and of what it charges. */
  predicate ActiveThen(rows: seq<PolicyRow>, o: Opening, s: Snapshot) {
    && FindActive(rows, o.service, s.actor) == Some(s.policyId)
    && CalculateCreditCost(rows[s.policyId].policy, o.distanceMeters) == Ok(s.cost) && s.credits == s.cost.credits
  }

  /** Every opening a run shows was made by one of its steps, and reads as that step wrote it. */
  lemma {:induction false} OpeningsWereOpened(ops: seq<Op>, id: nat) returns (k: nat)
    requires id in Run(START, ops).openings
    ensures k < |ops| && OpenedBy(ops, k, id, Run(START, ops).openings[id])
    decreases |ops|
  {
    var n := |ops| - 1;
    assert ops == ops[..n] + [ops[n]];
    RunAppends(START, ops[..n], [ops[n]]);
    var before := Run(START, ops[..n]);
    assert Run(before, [ops[n]]) == Apply(before, ops[n]);
    if id in before.openings {
      StepKeeps(before, ops[n], id, 0);
      k := OpeningsWereOpened(ops[..n], id);
      assert ops[..n][..k] == ops[..k];
    } else {
      k := n;
      OnlyOpenOpens(before, ops[n], id);
    }
  }

  lemma OnlyOpenOpens(r: Registry, op: Op, id: nat)
    requires id !in r.openings && id in Apply(r, op).openings
    ensures op.Open? && op.id == id
    ensures Snapshots(r.rows, op.service, op.distance, CreditActorsFor(op.mode)).Ok?
    ensures Apply(r, op).openings[id] ==
            Opening(op.service, op.mode, op.distance, r.clock, Snapshots(r.rows, op.service, op.distance, CreditActorsFor(op.mode)).value)
  {}

  /**
   * What a run's dispatch froze for an actor is the cost under the version that was ACTIVE, in the
   * registry just before its opening, and no other, also when a new version was written at that instant.
   */
  lemma OpeningsFreezeTheActiveVersion(ops: seq<Op>, id: nat, i: nat) returns (k: nat)
    requires id in Run(START, ops).openings && i < |Run(START, ops).openings[id].snapshots|
    ensures k < |ops| && OpenedBy(ops, k, id, Run(START, ops).openings[id])
    ensures var o := Run(START, ops).openings[id];
            var s, rows := o.snapshots[i], Run(START, ops[..k]).rows;
            ActiveThen(rows, o, s) && rows[s.policyId].status.ACTIVE?
  {
    k := OpeningsWereOpened(ops, id);
    var o := Run(START, ops).openings[id];
    SnapshotsAreOfActives(Run(START, ops[..k]).rows, o.service, o.distanceMeters, CreditActorsFor(o.mode), i);
  }

  lemma {:induction false} SnapshotsAreOfActives(rows: seq<PolicyRow>, service: Service, distance: real, actors: seq<ActorType>, i: nat)
    requires Snapshots(rows, service, distance, actors).Ok? && i < |Snapshots(rows, service, distance, actors).value|
    ensures |Snapshots(rows, service, distance, actors).value| == |actors|
    ensures var s := Snapshots(rows, service, distance, actors).value[i];
            && FindActive(rows, service, s.actor) == Some(s.policyId)
            && CalculateCreditCost(rows[s.policyId].policy, distance) == Ok(s.cost) && s.credits == s.cost.credits
  {
    var n := |actors| - 1;
    var earlier := Snapshots(rows, service, distance, actors[..n]).value;
    if i < |earlier| {
      SnapshotsAreOfActives(rows, service, distance, actors[..n], i);
    } else if |earlier| > 0 {
      SnapshotsAreOfActives(rows, service, distance, actors[..n], 0);
    } else if n > 0 {
      NoSnapshotsNoActors(rows, service, distance, actors[..n]);
    }
  }

  lemma {:induction false} NoSnapshotsNoActors(rows: seq<PolicyRow>, service: Service, distance: real, actors: seq<ActorType>)
    requires Snapshots(rows, service, distance, actors) == Ok([])
    ensures actors == []
  {}

  lemma {:induction false} FoundCost(snapshots: seq<Snapshot>, actor: ActorType)
    ensures var cost := CreditCostFor(snapshots, actor);
            && (cost.Some? ==> exists i :: 0 <= i < |snapshots| && snapshots[i].actor == actor && snapshots[i].credits == cost.value)
            && (cost.None? ==> forall i :: 0 <= i < |snapshots| ==> snapshots[i].actor != actor)
  {
    if snapshots != [] && snapshots[0].actor != actor {
      FoundCost(snapshots[1..], actor);
      var cost := CreditCostFor(snapshots[1..], actor);
      if cost.Some? {
        var i :| 0 <= i < |snapshots| - 1 && snapshots[1..][i].actor == actor && snapshots[1..][i].credits == cost.value;
        assert snapshots[i + 1].actor == actor && snapshots[i + 1].credits == cost.value;
      } else {
        forall i | 0 <= i < |snapshots| ensures snapshots[i].actor != actor {
          if i > 0 { assert snapshots[1..][i - 1].actor != actor; }
        }
      }
    }
  }

  ghost predicate RowKept(row: PolicyRow, later: PolicyRow) {
    && later == row.(status := later.status, effectiveUntil := later.effectiveUntil)
    && (row.status.INACTIVE? ==> later == row)
  }

  ghost predicate Kept(r: Registry, later: Registry, id: nat, i: nat) {
    && (id in r.openings ==> id in later.openings && later.openings[id] == r.openings[id])
    && (i < |r.rows| ==> i < |later.rows| && RowKept(r.rows[i], later.rows[i]))
  }

  lemma NextVersionKeeps(r: Registry, base: nat, policy: Policy, id: nat, i: nat)
    ensures Kept(r, NextVersion(r, base, policy).0, id, i)
  {}

  lemma StepKeeps(r: Registry, op: Op, id: nat, i: nat)
    ensures Kept(r, Apply(r, op), id, i)
  {
    match op
    case CreateVersion(base, c) => NextVersionKeeps(r, base, PolicyOf(c), id, i);
    case CreateInitial(service, actor, c) => assert Kept(r, FirstVersion(r, service, actor, PolicyOf(c)).0, id, i);
    case Open(_, _, _, _) =>
    case Tick(_) =>
  }

  /** No later version, opening or instant changes what a dispatch froze; a version, once closed, is final. */
  lemma {:induction false} FrozenCostsStay(r: Registry, ops: seq<Op>, id: nat, i: nat)
    ensures Kept(r, Run(r, ops), id, i)
    decreases |ops|
  {
    if ops != [] {
      StepKeeps(r, ops[0], id, i);
      FrozenCostsStay(Apply(r, ops[0]), ops[1..], id, i);
    }
  }

  /** Two versions written from the same base: the second is refused and writes nothing. */
  lemma StaleBaseIsRefused(r: Registry, base: nat, first: Config, second: Config)
    requires Sound(r) && CreateVersionStep(r, base, first).1.Ok?
    ensures var after := CreateVersionStep(r, base, first).0;
            CreateVersionStep(after, base, second).0 == after && CreateVersionStep(after, base, second).1.Err?
  {}

  // ---------------------------------------------------------------- stored policies are never corrupt

  /** A row whose policy came from an accepted configuration. */
  ghost predicate Configured(row: PolicyRow) { exists c: Config :: ConfigErrors(c) == [] && row.policy == PolicyOf(c) }

  ghost predicate AllConfigured(r: Registry) { forall i :: 0 <= i < |r.rows| ==> Configured(r.rows[i]) }

  lemma {:induction false} RunIsConfigured(r: Registry, ops: seq<Op>)
    requires AllConfigured(r)
    ensures AllConfigured(Run(r, ops))
    decreases |ops|
  {
    if ops != [] {
      var after := Apply(r, ops[0]);
      forall i | 0 <= i < |after.rows| ensures Configured(after.rows[i]) {
        if i < |r.rows| { ConfiguredStays(r, ops[0], i); } else { AddedIsConfigured(r, ops[0], i); }
      }
      RunIsConfigured(after, ops[1..]);
    }
  }

  lemma SamePolicyIsConfigured(row: PolicyRow, later: PolicyRow)
    requires Configured(row) && later.policy == row.policy
    ensures Configured(later)
  {}

  lemma ConfiguredStays(r: Registry, op: Op, i: nat)
    requires i < |r.rows| && Configured(r.rows[i])
    ensures i < |Apply(r, op).rows| && Configured(Apply(r, op).rows[i])
  {
    StepKeeps(r, op, 0, i);
    SamePolicyIsConfigured(r.rows[i], Apply(r, op).rows[i]);
  }

  lemma AddedIsConfigured(r: Registry, op: Op, i: nat)
    requires |r.rows| <= i < |Apply(r, op).rows|
    ensures Configured(Apply(r, op).rows[i])
  {
    var c := op.config;
    assert ConfigErrors(c) == [] && Apply(r, op).rows[i].policy == PolicyOf(c);
  }

  /** After any run, costing under a stored version never finds it corrupt: a resolved opening fails only on its price. */
  lemma StoredPoliciesAlwaysPrice(ops: seq<Op>, service: Service, actor: ActorType, distance: real)
    requires CanonicalDistance(distance)
    ensures var rows := Run(START, ops).rows;
            var s := SnapshotFor(rows, service, distance, actor);
            s.Err? ==> (s.error == POLICY_UNAVAILABLE && FindActive(rows, service, actor).None?)
                       || s.error == Costing(CREDIT_COST_OUT_OF_RANGE)
  {
    RunIsConfigured(START, ops);
    var rows := Run(START, ops).rows;
    var id := FindActive(rows, service, actor);
    if id.Some? {
      assert Configured(rows[id.value]);
      var c: Config :| ConfigErrors(c) == [] && rows[id.value].policy == PolicyOf(c);
      CostNeverFindsCorruption(c, distance);
    }
  }

  // ---------------------------------------------------------------- the service

  class CreditPoliciesService {
    var clock: nat
    var rows: seq<PolicyRow>
    var openings: map<nat, Opening>

    function View(): Registry reads this { Registry(clock, rows, openings) }

    constructor ()
      ensures View() == START
    {
      clock, rows, openings := 0, [], map[];
    }

    method CreateInitial(service: Service, actor: ActorType, c: Config) returns (r: Result<nat, Error>)
      modifies this`rows
      ensures (View(), r) == CreateInitialStep(old(View()), service, actor, c)
    {
      var valid, errors, ranges := ValidatePolicyConfig(c);
      if !valid { return Err(INVALID(errors)); }
      r := InsertInitial(service, actor, PolicyOf(c));
    }

    method InsertInitial(service: Service, actor: ActorType, policy: Policy) returns (r: Result<nat, Error>)
      modifies this`rows
      ensures (View(), r) == FirstVersion(old(View()), service, actor, policy)
    {
      for i := 0 to |rows|
        invariant forall k :: 0 <= k < i ==> !Of(rows[k], service, actor)
      {
        if Of(rows[i], service, actor) { return Err(CREDIT_POLICY_EXISTS); }
      }
      rows := rows + [NewRow(service, actor, 1, policy, clock)];
      return Ok(|rows| - 1);
    }

    method CreateVersion(base: nat, c: Config) returns (r: Result<nat, Error>)
      modifies this`rows
      ensures (View(), r) == CreateVersionStep(old(View()), base, c)
    {
      var valid, errors, ranges := ValidatePolicyConfig(c);
      if !valid { return Err(INVALID(errors)); }
      r := InsertVersion(base, PolicyOf(c));
    }

    /** The base row closes and the next version opens at one instant. */
    method InsertVersion(base: nat, policy: Policy) returns (r: Result<nat, Error>)
      modifies this`rows
      ensures (View(), r) == NextVersion(old(View()), base, policy)
    {
      if base >= |rows| { return Err(NOT_FOUND); }
      var service, actor := rows[base].service, rows[base].actor;
      var active := FindActive(rows, service, actor);
      if active.None? || active.value != base { return Err(CREDIT_POLICY_VERSION_CONFLICT); }
      var next := MaxVersion(rows, service, actor) + 1;
      rows := rows[base := Superseded(rows[base], clock)];
      rows := rows + [NewRow(service, actor, next, policy, clock)];
      return Ok(|rows| - 1);
    }

    /** One actor after another; the first that cannot be costed abandons the opening. */
    method CreateDispatchCreditSnapshots(service: Service, distance: real, actors: seq<ActorType>)
      returns (r: Result<seq<Snapshot>, Error>)
      ensures r == Snapshots(rows, service, distance, actors)
    {
      var snapshots := [];
      for i := 0 to |actors|
        invariant Snapshots(rows, service, distance, actors[..i]) == Ok(snapshots)
      {
        assert actors[..i + 1][..i] == actors[..i];
        var policy := ResolveActive(rows, service, actors[i]);
        if policy.Err? { AbandonedStays(rows, service, distance, actors, i + 1); return Err(policy.error); }
        var row := rows[policy.value];
        var cost := CalculateCreditCost(row.policy, distance);
        if cost.Err? { AbandonedStays(rows, service, distance, actors, i + 1); return Err(Costing(cost.error)); }
        if cost.value.credits < 1 {
          AbandonedStays(rows, service, distance, actors, i + 1);
          return Err(Costing(CREDIT_COST_OUT_OF_RANGE));
        }
        snapshots := snapshots + [Snapshot(actors[i], service, policy.value, row.version, distance, cost.value, cost.value.credits)];
      }
      assert actors[..|actors|] == actors;
      return Ok(snapshots);
    }
  }

  lemma {:induction false} AbandonedStays(rows: seq<PolicyRow>, service: Service, distance: real, actors: seq<ActorType>, n: nat)
    requires n <= |actors| && Snapshots(rows, service, distance, actors[..n]).Err?
    ensures Snapshots(rows, service, distance, actors) == Snapshots(rows, service, distance, actors[..n])
    decreases |actors|
  {
    if n == |actors| {
      assert actors[..n] == actors;
    } else {
      var m := |actors| - 1;
      assert actors[..m][..n] == actors[..n];
      AbandonedStays(rows, service, distance, actors[..m], n);
    }
  }
}
