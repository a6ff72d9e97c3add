/**
 * The permit ledger behind one advisory lock: admit, start, finish, and the lazy recovery of lapsed
 * permits. Each operation is one transaction and so one atomic step; `Apply` is its effect on the
 * tables and `Run` any sequence of steps on one monotone database clock.
 *
 * Hashes (of the owner secret and of the limits) are injective here, so the value stands for its hash.
 */
module PermitLedger {
  import opened Common
  import opened ConsumptionPolicy

  const START_GRACE_MS: nat := 5000
  const RECOVERY_BATCH: nat := 100

  /** What one backend is configured with. */
  datatype Config = Config(enabled: bool, limits: Limits)

  datatype Error = PREQUOTE_DISABLED | PREQUOTE_CONSUMPTION_UNAVAILABLE | PREQUOTE_PERMIT_INVALID | STORAGE_CONFLICT

  /** The singleton policy fingerprint and the permit table, ordered by id. */
  datatype Ledger = Ledger(policy: Option<Limits>, rows: seq<Permit>)

  datatype Decision = Denied(retryAt: nat) | Admitted(id: nat)

  function PolicyOf(cfg: Config): Result<Limits, Error> {
    if !cfg.enabled then Err(PREQUOTE_DISABLED)
    else if !ValidLimits(cfg.limits) then Err(PREQUOTE_CONSUMPTION_UNAVAILABLE)
    else Ok(cfg.limits)
  }

  /** The first backend to get here pins the policy; a backend configured otherwise is refused. */
  function CheckedPolicy(l: Ledger, cfg: Config): Result<Limits, Error> {
    if PolicyOf(cfg).Ok? && l.policy.Some? && l.policy.value != cfg.limits
    then Err(PREQUOTE_CONSUMPTION_UNAVAILABLE)
    else PolicyOf(cfg)
  }

  // ---------------------------------------------------------------- rows

  predicate Lapsed(p: Permit, now: nat) {
    || (p.state.RESERVED? && p.reserveExpiresAt <= now)
    || (p.state.STARTED? && p.start.Start? && p.start.protectedUntil <= now)
  }

  function Recovered(p: Permit, now: nat): Permit {
    p.(state := if p.state.RESERVED? then EXPIRED else ABANDONED, finishedAt := Some(now))
  }

  /** Relabels the first `batch` lapsed rows, in id order. */
  function Recover(rows: seq<Permit>, now: nat, batch: nat): seq<Permit> {
    if rows == [] then []
    else if Lapsed(rows[0], now) && batch > 0 then [Recovered(rows[0], now)] + Recover(rows[1..], now, batch - 1)
    else [rows[0]] + Recover(rows[1..], now, batch)
  }

  predicate Visible(p: Permit, now: nat) {
    || (p.state.RESERVED? && p.reserveExpiresAt > now)
    || (p.start.Start? && p.start.startedAt + DAY_MS > now)
    || (p.start.Start? && p.start.protectedUntil > now)
  }

  function VisibleRows(rows: seq<Permit>, now: nat): seq<Permit> {
    if rows == [] then []
    else (if Visible(rows[0], now) then [rows[0]] else []) + VisibleRows(rows[1..], now)
  }

  /** Index of the row with this id, or |rows|. */
  function Find(rows: seq<Permit>, id: nat): (i: nat)
    ensures i <= |rows|
    ensures i < |rows| ==> rows[i].id == id
    ensures i == |rows| ==> forall j :: 0 <= j < |rows| ==> rows[j].id != id
  {
    if rows == [] || rows[0].id == id then 0 else 1 + Find(rows[1..], id)
  }

  /** Where a new id goes in the id order. */
  function Place(rows: seq<Permit>, id: nat): (i: nat)
    ensures i <= |rows|
  {
    if rows == [] || id < rows[0].id then 0 else 1 + Place(rows[1..], id)
  }

  function InsertPermit(rows: seq<Permit>, p: Permit): seq<Permit> {
    rows[..Place(rows, p.id)] + [p] + rows[Place(rows, p.id)..]
  }

  function NewPermit(c: Limits, client: Client, owner: nat, id: nat, now: nat): Permit
    requires ValidLimits(c)
  {
    Permit(id, client, owner, c, RESERVED, c.retries + 1, RoutingProtectionMs(c),
           now, now + c.reserveMs, NotStarted, None, None)
  }

  predicate Startable(p: Permit, owner: nat, c: Limits, now: nat) {
    p.owner == owner && p.state.RESERVED? && now < p.reserveExpiresAt && p.fingerprint == c
  }

  function Started(p: Permit, now: nat): Permit {
    p.(state := STARTED, start := Start(now, now + START_GRACE_MS, now + p.routingBudgetMs))
  }

  function Finished(p: Permit, report: Report, now: nat): Permit {
    if p.state.RESERVED? then p.(state := CANCELLED, finishedAt := Some(now), report := Some(Report(false, false)))
    else p.(state := FINISHED, finishedAt := Some(now), report := Some(report))
  }

  // ---------------------------------------------------------------- the four operations as steps

  ghost function AdmitStep(l: Ledger, cfg: Config, client: Client, owner: nat, id: nat, now: nat)
    : (Ledger, Result<Decision, Error>)
  {
    match CheckedPolicy(l, cfg)
    case Err(e) => (l, Err(e))
    case Ok(c) =>
      var recovered := Recover(l.rows, now, RECOVERY_BATCH);
      var visible := VisibleRows(recovered, now);
      if !Admits(visible, client, c, now) then
        (Ledger(Some(c), recovered), Ok(Denied(FirstAdmissible(visible, client, c, now))))
      else if Find(l.rows, id) < |l.rows| then
        (l, Err(STORAGE_CONFLICT))
      else
        (Ledger(Some(c), InsertPermit(recovered, NewPermit(c, client, owner, id, now))), Ok(Admitted(id)))
  }

  function StartStep(l: Ledger, cfg: Config, id: nat, owner: nat, now: nat): (Ledger, Result<(), Error>) {
    match CheckedPolicy(l, cfg)
    case Err(e) => (l, Err(e))
    case Ok(c) =>
      var i := Find(l.rows, id);
      if i == |l.rows| || !Startable(l.rows[i], owner, c, now) then (l, Err(PREQUOTE_PERMIT_INVALID))
      else (Ledger(Some(c), l.rows[i := Started(l.rows[i], now)]), Ok(()))
  }

  /** Reads only: the permit is started, is the caller's, and its start window is still open. */
  function ReadyStep(l: Ledger, cfg: Config, id: nat, owner: nat, now: nat): Result<(), Error> {
    match PolicyOf(cfg)
    case Err(e) => Err(e)
    case Ok(c) =>
      if l.policy != Some(c) then Err(PREQUOTE_CONSUMPTION_UNAVAILABLE)
      else
        var i := Find(l.rows, id);
        if i == |l.rows| then Err(PREQUOTE_PERMIT_INVALID)
        else
          var p := l.rows[i];
          if p.owner != owner || !p.state.STARTED? || !p.start.Start? || p.start.startBy <= now || p.fingerprint != c
          then Err(PREQUOTE_PERMIT_INVALID) else Ok(())
  }

  function FinishStep(l: Ledger, id: nat, owner: nat, report: Report, now: nat): (Ledger, Result<(), Error>) {
    var i := Find(l.rows, id);
    if i == |l.rows| || l.rows[i].owner != owner then (l, Err(PREQUOTE_PERMIT_INVALID))
    else if !l.rows[i].state.RESERVED? && !l.rows[i].state.STARTED? then (l, Ok(()))
    else (l.(rows := l.rows[i := Finished(l.rows[i], report, now)]), Ok(()))
  }

  datatype Op =
    | AdmitOp(cfg: Config, client: Client, owner: nat, id: nat)
    | StartOp(cfg: Config, id: nat, owner: nat)
    | FinishOp(id: nat, owner: nat, report: Report)

  datatype Event = Event(op: Op, at: nat)

  ghost function Apply(l: Ledger, e: Event): Ledger {
    match e.op
    case AdmitOp(cfg, client, owner, id) => AdmitStep(l, cfg, client, owner, id, e.at).0
    case StartOp(cfg, id, owner) => StartStep(l, cfg, id, owner, e.at).0
    case FinishOp(id, owner, report) => FinishStep(l, id, owner, report, e.at).0
  }

  ghost function Run(l: Ledger, events: seq<Event>): Ledger
    decreases |events|
  {
    if events == [] then l else Run(Apply(l, events[0]), events[1..])
  }

  /** The database clock never goes back. */
  predicate Timely(events: seq<Event>, now: nat) {
    events == [] || (now <= events[0].at && Timely(events[1..], events[0].at))
  }

  const EMPTY := Ledger(None, [])

  // ---------------------------------------------------------------- what was really started

  /** The row counts against the quota at instant t, read from the start columns alone. */
  predicate InWindow(p: Permit, q: Quota, t: int) {
    && p.start.Start?
    && p.start.startedAt <= t
    && match q
       case Minute => t - 60000 < p.start.startedAt
       case Slots => t < p.start.protectedUntil
       case _ => t - 86400000 < p.start.startedAt
  }

  function ConsumedBy(p: Permit, client: Client, q: Quota, t: int): nat {
    if Concerns(p, client, q) && InWindow(p, q, t) then Weight(p, q) else 0
  }

  /** Starts in the window (or protected slots, or units started) at instant t. */
  function Consumed(rows: seq<Permit>, client: Client, q: Quota, t: int): nat {
    if rows == [] then 0 else ConsumedBy(rows[0], client, q, t) + Consumed(rows[1..], client, q, t)
  }

  lemma {:induction false} ConsumedConcat(a: seq<Permit>, b: seq<Permit>, client: Client, q: Quota, t: int)
    ensures Consumed(a + b, client, q, t) == Consumed(a, client, q, t) + Consumed(b, client, q, t)
  {
    if a == [] {
      assert a + b == b;
    } else {
      assert (a + b)[1..] == a[1..] + b;
      ConsumedConcat(a[1..], b, client, q, t);
    }
  }

  lemma {:induction false} ConsumedAtMostUsage(rows: seq<Permit>, client: Client, q: Quota, t: nat)
    ensures Consumed(rows, client, q, t) <= Usage(rows, client, q, t)
  {
    if rows != [] { ConsumedAtMostUsage(rows[1..], client, q, t); }
  }

  // ---------------------------------------------------------------- inserting and replacing a row

  lemma InsertAdds(rows: seq<Permit>, p: Permit, client: Client, q: Quota, t: nat)
    ensures Usage(InsertPermit(rows, p), client, q, t) == Usage(rows, client, q, t) + Share(p, client, q, t)
    ensures Consumed(InsertPermit(rows, p), client, q, t) == Consumed(rows, client, q, t) + ConsumedBy(p, client, q, t)
  {
    var k := Place(rows, p.id);
    assert rows == rows[..k] + rows[k..];
    assert InsertPermit(rows, p) == rows[..k] + ([p] + rows[k..]);
    UsageConcat(rows[..k], rows[k..], client, q, t);
    UsageConcat(rows[..k], [p] + rows[k..], client, q, t);
    UsageConcat([p], rows[k..], client, q, t);
    ConsumedConcat(rows[..k], rows[k..], client, q, t);
    ConsumedConcat(rows[..k], [p] + rows[k..], client, q, t);
    ConsumedConcat([p], rows[k..], client, q, t);
  }

  lemma {:induction false} ReplaceMoves(rows: seq<Permit>, i: nat, p: Permit, client: Client, q: Quota, t: nat)
    requires i < |rows|
    ensures Usage(rows[i := p], client, q, t) + Share(rows[i], client, q, t)
         == Usage(rows, client, q, t) + Share(p, client, q, t)
    ensures Consumed(rows[i := p], client, q, t) + ConsumedBy(rows[i], client, q, t)
         == Consumed(rows, client, q, t) + ConsumedBy(p, client, q, t)
  {
    if i > 0 {
      assert rows[i := p][1..] == rows[1..][i - 1 := p];
      ReplaceMoves(rows[1..], i - 1, p, client, q, t);
    } else {
      assert rows[0 := p][1..] == rows[1..];
    }
  }

  // ---------------------------------------------------------------- the projection is exact

  lemma {:induction false} RecoverKeepsUsage(rows: seq<Permit>, now: nat, batch: nat, client: Client, q: Quota, t: nat)
    requires forall p :: p in rows ==> p.state.RESERVED? ==> p.start.NotStarted?
    ensures now <= t ==> Usage(Recover(rows, now, batch), client, q, t) == Usage(rows, client, q, t)
    ensures Consumed(Recover(rows, now, batch), client, q, t) == Consumed(rows, client, q, t)
  {
    if rows != [] {
      var left := if Lapsed(rows[0], now) && batch > 0 then batch - 1 else batch;
      RecoverKeepsUsage(rows[1..], now, left, client, q, t);
      var r := Recover(rows, now, batch);
      assert r[1..] == Recover(rows[1..], now, left);
    }
  }

  lemma {:induction false} VisibleKeepsUsage(rows: seq<Permit>, now: nat, client: Client, q: Quota, t: nat)
    requires now <= t
    ensures Usage(VisibleRows(rows, now), client, q, t) == Usage(rows, client, q, t)
  {
    if rows != [] {
      VisibleKeepsUsage(rows[1..], now, client, q, t);
      var head := if Visible(rows[0], now) then [rows[0]] else [];
      UsageConcat(head, VisibleRows(rows[1..], now), client, q, t);
      assert head != [] ==> Usage(head, client, q, t) == Share(rows[0], client, q, t) + Usage([], client, q, t);
    }
  }

  /**
   * The decision taken on the filtered rows after a recovery of any size is the decision the whole
   * unrecovered ledger would give: same admission, same retry instant.
   */
  lemma ProjectionIsExact(rows: seq<Permit>, now: nat, batch: nat, client: Client, c: Limits)
    requires ValidLimits(c)
    requires forall p :: p in rows ==> p.state.RESERVED? ==> p.start.NotStarted?
    ensures var seen := VisibleRows(Recover(rows, now, batch), now);
            && Admits(seen, client, c, now) == Admits(rows, client, c, now)
            && FirstAdmissible(seen, client, c, now) == FirstAdmissible(rows, client, c, now)
  {
    var recovered := Recover(rows, now, batch);
    var seen := VisibleRows(recovered, now);
    forall q: Quota, t: nat ensures now <= t ==> Usage(seen, client, q, t) == Usage(rows, client, q, t) {
      if now <= t {
        RecoverKeepsUsage(rows, now, batch, client, q, t);
        VisibleKeepsUsage(recovered, now, client, q, t);
      }
    }
    SameUsageSameAnswer(seen, rows, client, c, now);
  }

  // ---------------------------------------------------------------- the invariant of every run

  ghost predicate RowSound(p: Permit, c: Limits, now: nat) {
    && p.fingerprint == c
    && p.units == c.retries + 1
    && p.routingBudgetMs == RoutingProtectionMs(c)
    && p.reservedAt <= now
    && p.reserveExpiresAt == p.reservedAt + c.reserveMs
    && (p.start.Start? <==> p.state.STARTED? || p.state.FINISHED? || p.state.ABANDONED?)
    && (p.start.Start? ==>
          && p.reservedAt <= p.start.startedAt < p.reserveExpiresAt
          && p.start.startedAt <= now
          && p.start.startBy == p.start.startedAt + START_GRACE_MS
          && p.start.protectedUntil == p.start.startedAt + p.routingBudgetMs)
  }

  ghost predicate RowsSound(rows: seq<Permit>, c: Limits, now: nat) {
    && (forall i :: 0 <= i < |rows| ==> RowSound(rows[i], c, now))
    && (forall i, j :: 0 <= i < j < |rows| ==> rows[i].id < rows[j].id)
  }

  /** Everything held now, and everything started at any earlier instant, is within the limits. */
  ghost predicate WithinLimits(rows: seq<Permit>, c: Limits, now: nat) {
    && (forall client: Client, q: Quota :: Usage(rows, client, q, now) <= LimitOf(q, c))
    && (forall client: Client, q: Quota, t: nat :: t < now ==> Consumed(rows, client, q, t) <= LimitOf(q, c))
  }

  ghost predicate Sound(l: Ledger, now: nat) {
    match l.policy
    case None => l.rows == []
    case Some(c) => ValidLimits(c) && RowsSound(l.rows, c, now) && WithinLimits(l.rows, c, now)
  }

  lemma ClockTick(l: Ledger, now: nat, later: nat)
    requires Sound(l, now) && now <= later
    ensures Sound(l, later)
  {
    if l.policy.Some? {
      forall client: Client, q: Quota
        ensures Usage(l.rows, client, q, later) <= LimitOf(q, l.policy.value)
      {
        UsageAntitone(l.rows, client, q, now, later);
      }
      forall client: Client, q: Quota, t: nat
        ensures t < later ==> Consumed(l.rows, client, q, t) <= LimitOf(q, l.policy.value)
      {
        if now <= t {
          ConsumedAtMostUsage(l.rows, client, q, t);
          UsageAntitone(l.rows, client, q, now, t);
        }
      }
    }
  }

  lemma {:induction false} RecoverRows(rows: seq<Permit>, now: nat, batch: nat)
    ensures |Recover(rows, now, batch)| == |rows|
    ensures forall i :: 0 <= i < |rows| ==>
              var r := Recover(rows, now, batch)[i];
              r == rows[i] || (Lapsed(rows[i], now) && r == Recovered(rows[i], now))
  {
    if rows != [] {
      var left := if Lapsed(rows[0], now) && batch > 0 then batch - 1 else batch;
      RecoverRows(rows[1..], now, left);
    }
  }

  lemma {:induction false} PlaceKeepsOrder(rows: seq<Permit>, id: nat)
    requires forall i, j :: 0 <= i < j < |rows| ==> rows[i].id < rows[j].id
    requires forall i :: 0 <= i < |rows| ==> rows[i].id != id
    ensures forall i :: 0 <= i < Place(rows, id) ==> rows[i].id < id
    ensures forall i :: Place(rows, id) <= i < |rows| ==> id < rows[i].id
  {
    if rows != [] && rows[0].id < id { PlaceKeepsOrder(rows[1..], id); }
  }

  lemma RecoverKeepsRows(rows: seq<Permit>, c: Limits, now: nat, batch: nat)
    requires RowsSound(rows, c, now)
    ensures RowsSound(Recover(rows, now, batch), c, now)
  {
    RecoverRows(rows, now, batch);
    var r := Recover(rows, now, batch);
    forall i, j | 0 <= i < j < |r| ensures r[i].id < r[j].id {
      assert r[i].id == rows[i].id && r[j].id == rows[j].id;
    }
  }

  lemma InsertKeepsRows(rows: seq<Permit>, c: Limits, p: Permit, now: nat)
    requires RowsSound(rows, c, now) && RowSound(p, c, now)
    requires forall i :: 0 <= i < |rows| ==> rows[i].id != p.id
    ensures RowsSound(InsertPermit(rows, p), c, now)
  {
    PlaceKeepsOrder(rows, p.id);
    var k := Place(rows, p.id);
    var r := InsertPermit(rows, p);
    forall i | 0 <= i < |r| ensures r[i] == if i < k then rows[i] else if i == k then p else rows[i - 1] {}
  }

  lemma AdmitKeepsRows(rows: seq<Permit>, c: Limits, client: Client, owner: nat, id: nat, now: nat)
    requires ValidLimits(c) && RowsSound(rows, c, now) && Find(rows, id) == |rows|
    ensures RowsSound(InsertPermit(Recover(rows, now, RECOVERY_BATCH), NewPermit(c, client, owner, id, now)), c, now)
  {
    RecoverKeepsRows(rows, c, now, RECOVERY_BATCH);
    RecoverRows(rows, now, RECOVERY_BATCH);
    InsertKeepsRows(Recover(rows, now, RECOVERY_BATCH), c, NewPermit(c, client, owner, id, now), now);
  }

  /** Right after an admission every limit holds. */
  lemma AdmitKeepsNow(l: Ledger, cfg: Config, client: Client, owner: nat, id: nat, now: nat, other: Client, q: Quota)
    requires Sound(l, now) && CheckedPolicy(l, cfg).Ok?
    requires AdmitStep(l, cfg, client, owner, id, now).0 != l
    ensures Usage(AdmitStep(l, cfg, client, owner, id, now).0.rows, other, q, now) <= LimitOf(q, cfg.limits)
  {
    var recovered := Recover(l.rows, now, RECOVERY_BATCH);
    RecoverKeepsUsage(l.rows, now, RECOVERY_BATCH, other, q, now);
    InsertAdds(recovered, NewPermit(cfg.limits, client, owner, id, now), other, q, now);
    VisibleKeepsUsage(recovered, now, other, q, now);
    if q.Units? { UnitsAreShared(VisibleRows(recovered, now), other, client, now); }
  }

  lemma AdmitIsSafe(l: Ledger, cfg: Config, client: Client, owner: nat, id: nat, now: nat)
    requires Sound(l, now)
    ensures Sound(AdmitStep(l, cfg, client, owner, id, now).0, now)
  {
    var step := AdmitStep(l, cfg, client, owner, id, now);
    if CheckedPolicy(l, cfg).Ok? && step.0 != l {
      var c := cfg.limits;
      var recovered := Recover(l.rows, now, RECOVERY_BATCH);
      RecoverRows(l.rows, now, RECOVERY_BATCH);
      var p := NewPermit(c, client, owner, id, now);
      forall other: Client, q: Quota
        ensures Usage(step.0.rows, other, q, now) <= LimitOf(q, c)
      { AdmitKeepsNow(l, cfg, client, owner, id, now, other, q); }
      forall other: Client, q: Quota, t: nat
        ensures t < now ==> Consumed(step.0.rows, other, q, t) <= LimitOf(q, c)
      {
        RecoverKeepsUsage(l.rows, now, RECOVERY_BATCH, other, q, t);
        InsertAdds(recovered, p, other, q, t);
      }
      RecoverKeepsRows(l.rows, c, now, RECOVERY_BATCH);
      if step.1.Ok? && step.1.value.Admitted? { AdmitKeepsRows(l.rows, c, client, owner, id, now); }
    }
  }

  lemma {:induction false} UnitsAreShared(rows: seq<Permit>, a: Client, b: Client, t: nat)
    ensures Usage(rows, a, Units, t) == Usage(rows, b, Units, t)
  {
    if rows != [] { UnitsAreShared(rows[1..], a, b, t); }
  }

  /** A reservation that turns into a start, however late, weighs exactly what it already held. */
  lemma StartIsSafe(l: Ledger, cfg: Config, id: nat, owner: nat, now: nat)
    requires Sound(l, now)
    ensures Sound(StartStep(l, cfg, id, owner, now).0, now)
  {
    var step := StartStep(l, cfg, id, owner, now);
    if step.1.Ok? {
      var i := Find(l.rows, id);
      var p := Started(l.rows[i], now);
      forall client: Client, q: Quota
        ensures Usage(step.0.rows, client, q, now) <= LimitOf(q, cfg.limits)
      {
        ReplaceMoves(l.rows, i, p, client, q, now);
      }
      forall client: Client, q: Quota, t: nat
        ensures t < now ==> Consumed(step.0.rows, client, q, t) <= LimitOf(q, cfg.limits)
      {
        ReplaceMoves(l.rows, i, p, client, q, t);
      }
    }
  }

  lemma FinishIsSafe(l: Ledger, id: nat, owner: nat, report: Report, now: nat)
    requires Sound(l, now)
    ensures Sound(FinishStep(l, id, owner, report, now).0, now)
  {
    var step := FinishStep(l, id, owner, report, now);
    if step.0 != l {
      var i := Find(l.rows, id);
      var p := Finished(l.rows[i], report, now);
      forall client: Client, q: Quota
        ensures Usage(step.0.rows, client, q, now) <= LimitOf(q, l.policy.value)
      {
        ReplaceMoves(l.rows, i, p, client, q, now);
      }
      forall client: Client, q: Quota, t: nat
        ensures t < now ==> Consumed(step.0.rows, client, q, t) <= LimitOf(q, l.policy.value)
      {
        ReplaceMoves(l.rows, i, p, client, q, t);
      }
    }
  }

  lemma StepIsSafe(l: Ledger, now: nat, e: Event)
    requires Sound(l, now) && now <= e.at
    ensures Sound(Apply(l, e), e.at)
  {
    ClockTick(l, now, e.at);
    match e.op
    case AdmitOp(cfg, client, owner, id) => AdmitIsSafe(l, cfg, client, owner, id, e.at);
    case StartOp(cfg, id, owner) => StartIsSafe(l, cfg, id, owner, e.at);
    case FinishOp(id, owner, report) => FinishIsSafe(l, id, owner, report, e.at);
  }

  function Latest(events: seq<Event>, now: nat): nat {
    if events == [] then now else Latest(events[1..], events[0].at)
  }

  lemma {:induction false} RunIsSafe(l: Ledger, now: nat, events: seq<Event>)
    requires Sound(l, now) && Timely(events, now)
    ensures Sound(Run(l, events), Latest(events, now))
    decreases |events|
  {
    if events != [] {
      StepIsSafe(l, now, events[0]);
      RunIsSafe(Apply(l, events[0]), events[0].at, events[1..]);
    }
  }

  /**
   * Sliding-window safety. After any run, at every instant t, past or future, for every integration:
   * starts in (t - 60 s, t] and in (t - 24 h, t], protected slots, and the units everybody started in
   * (t - 24 h, t] are within the limits the ledger was opened with.
   */
  lemma WindowSafety(events: seq<Event>, client: Client, t: nat)
    requires Timely(events, 0) && Run(EMPTY, events).policy.Some?
    ensures var l := Run(EMPTY, events); var c := l.policy.value;
            && Consumed(l.rows, client, Minute, t) <= c.minute
            && Consumed(l.rows, client, Day, t) <= c.day
            && Consumed(l.rows, client, Slots, t) <= c.concurrent
            && Consumed(l.rows, client, Units, t) <= c.globalUnits
  {
    RunIsSafe(EMPTY, 0, events);
    SoundBounds(Run(EMPTY, events), Latest(events, 0), client, Minute, t);
    SoundBounds(Run(EMPTY, events), Latest(events, 0), client, Day, t);
    SoundBounds(Run(EMPTY, events), Latest(events, 0), client, Slots, t);
    SoundBounds(Run(EMPTY, events), Latest(events, 0), client, Units, t);
  }

  lemma SoundBounds(l: Ledger, now: nat, client: Client, q: Quota, t: nat)
    requires Sound(l, now) && l.policy.Some?
    ensures Consumed(l.rows, client, q, t) <= LimitOf(q, l.policy.value)
  {
    ClockTick(l, now, Max(now, t));
    ConsumedAtMostUsage(l.rows, client, q, t);
  }

  /** Admission and its recovery, granted or not, leave every past and present consumption as it was. */
  lemma AdmitFreesNothing(l: Ledger, now: nat, cfg: Config, who: Client, owner: nat, id: nat,
                          client: Client, q: Quota, t: nat)
    requires Sound(l, now)
    ensures Consumed(AdmitStep(l, cfg, who, owner, id, now).0.rows, client, q, t) == Consumed(l.rows, client, q, t)
  {
    if CheckedPolicy(l, cfg).Ok? {
      RecoverKeepsUsage(l.rows, now, RECOVERY_BATCH, client, q, t);
      InsertAdds(Recover(l.rows, now, RECOVERY_BATCH), NewPermit(cfg.limits, who, owner, id, now), client, q, t);
    }
  }

  /** Finishing a started permit, whatever it reports, frees nothing; cancelling one frees its own hold. */
  lemma FinishFreesOnlyAReservation(l: Ledger, now: nat, id: nat, owner: nat, report: Report,
                                    client: Client, q: Quota, t: nat)
    requires Sound(l, now)
    ensures var after := FinishStep(l, id, owner, report, now).0.rows; var i := Find(l.rows, id);
            && Consumed(after, client, q, t) == Consumed(l.rows, client, q, t)
            && Usage(after, client, q, t) == Usage(l.rows, client, q, t)
               - (if i < |l.rows| && l.rows[i].owner == owner && l.rows[i].state.RESERVED?
                  then Share(l.rows[i], client, q, t) else 0)
  {
    var i := Find(l.rows, id);
    if i < |l.rows| { ReplaceMoves(l.rows, i, Finished(l.rows[i], report, now), client, q, t); }
  }

  /** A start adds its own share and nothing else. */
  lemma StartConsumesOnce(l: Ledger, now: nat, cfg: Config, id: nat, owner: nat, client: Client, q: Quota, t: nat)
    requires Sound(l, now) && StartStep(l, cfg, id, owner, now).1.Ok?
    ensures var after := StartStep(l, cfg, id, owner, now).0;
            && Consumed(after.rows, client, q, t)
               == Consumed(l.rows, client, q, t) + ConsumedBy(Started(l.rows[Find(l.rows, id)], now), client, q, t)
            && forall cfg': Config, owner': nat, later: nat :: StartStep(after, cfg', id, owner', later).1.Err?
  {
    var i := Find(l.rows, id);
    var p := Started(l.rows[i], now);
    ReplaceMoves(l.rows, i, p, client, q, t);
    FindAfterReplace(l.rows, i, p, id);
  }

  /** A row of this permit that has started. */
  ghost predicate HasStarted(rows: seq<Permit>, id: nat) {
    exists i :: 0 <= i < |rows| && rows[i].id == id && rows[i].start.Start?
  }

  lemma RecoverKeepsStarted(rows: seq<Permit>, now: nat, batch: nat, id: nat)
    requires HasStarted(rows, id)
    ensures HasStarted(Recover(rows, now, batch), id)
  {
    var i :| 0 <= i < |rows| && rows[i].id == id && rows[i].start.Start?;
    RecoverRows(rows, now, batch);
    assert Recover(rows, now, batch)[i].id == id && Recover(rows, now, batch)[i].start.Start?;
  }

  lemma InsertKeepsStarted(rows: seq<Permit>, p: Permit, id: nat)
    requires HasStarted(rows, id)
    ensures HasStarted(InsertPermit(rows, p), id)
  {
    var i :| 0 <= i < |rows| && rows[i].id == id && rows[i].start.Start?;
    assert InsertPermit(rows, p)[if i < Place(rows, p.id) then i else i + 1] == rows[i];
  }

  lemma ReplaceKeepsStarted(rows: seq<Permit>, k: nat, p: Permit, id: nat)
    requires HasStarted(rows, id) && k < |rows| && p.id == rows[k].id && (rows[k].start.Start? ==> p.start.Start?)
    ensures HasStarted(rows[k := p], id)
  {
    var i :| 0 <= i < |rows| && rows[i].id == id && rows[i].start.Start?;
    assert rows[k := p][i].id == id && rows[k := p][i].start.Start?;
  }

  lemma AdmitKeepsStarted(l: Ledger, cfg: Config, client: Client, owner: nat, other: nat, now: nat, id: nat)
    requires HasStarted(l.rows, id)
    ensures HasStarted(AdmitStep(l, cfg, client, owner, other, now).0.rows, id)
  {
    RecoverKeepsStarted(l.rows, now, RECOVERY_BATCH, id);
    if CheckedPolicy(l, cfg).Ok? {
      InsertKeepsStarted(Recover(l.rows, now, RECOVERY_BATCH), NewPermit(cfg.limits, client, owner, other, now), id);
    }
  }

  lemma StepKeepsStarted(l: Ledger, now: nat, e: Event, id: nat)
    requires Sound(l, now) && now <= e.at && HasStarted(l.rows, id)
    ensures HasStarted(Apply(l, e).rows, id)
  {
    match e.op
    case AdmitOp(cfg, client, owner, other) => AdmitKeepsStarted(l, cfg, client, owner, other, e.at, id);
    case StartOp(cfg, other, owner) =>
      var k := Find(l.rows, other);
      if k < |l.rows| { ReplaceKeepsStarted(l.rows, k, Started(l.rows[k], e.at), id); }
    case FinishOp(other, owner, report) =>
      var k := Find(l.rows, other);
      if k < |l.rows| { ReplaceKeepsStarted(l.rows, k, Finished(l.rows[k], report, e.at), id); }
  }

  lemma {:induction false} RunKeepsStarted(l: Ledger, now: nat, events: seq<Event>, id: nat)
    requires Sound(l, now) && Timely(events, now) && HasStarted(l.rows, id)
    ensures HasStarted(Run(l, events).rows, id)
    decreases |events|
  {
    if events != [] {
      StepKeepsStarted(l, now, events[0], id);
      StepIsSafe(l, now, events[0]);
      RunKeepsStarted(Apply(l, events[0]), events[0].at, events[1..], id);
    }
  }

  /** A permit starts once: after any later run, no start of it, by anyone and at any time, succeeds. */
  lemma StartedNeverRestarts(l: Ledger, now: nat, cfg: Config, id: nat, owner: nat, events: seq<Event>,
                             other: Config, caller: nat, later: nat)
    requires Sound(l, now) && StartStep(l, cfg, id, owner, now).1.Ok?
    requires Timely(events, now)
    ensures StartStep(Run(StartStep(l, cfg, id, owner, now).0, events), other, id, caller, later).1.Err?
  {
    var started := StartStep(l, cfg, id, owner, now).0;
    StartIsSafe(l, cfg, id, owner, now);
    assert started.rows[Find(l.rows, id)].id == id && started.rows[Find(l.rows, id)].start.Start?;
    RunIsSafe(started, now, events);
    RunKeepsStarted(started, now, events, id);
    var end := Run(started, events);
    var i :| 0 <= i < |end.rows| && end.rows[i].id == id && end.rows[i].start.Start?;
    OneRowEach(end, Latest(events, now), i);
  }

  lemma OneRowEach(l: Ledger, now: nat, i: nat)
    requires Sound(l, now) && i < |l.rows|
    ensures Find(l.rows, l.rows[i].id) == i
  {
    var k := Find(l.rows, l.rows[i].id);
    assert k < |l.rows|;
    assert !(k < i) && !(i < k);
  }

  /**
   * Readiness holds exactly when some row of the ledger is that permit, of that owner, started, with its
   * start window still open, on a backend enabled and configured as the ledger is.
   */
  lemma ReadyIsExact(l: Ledger, at: nat, cfg: Config, id: nat, owner: nat, now: nat)
    requires Sound(l, at)
    ensures ReadyStep(l, cfg, id, owner, now).Ok? <==>
              && cfg.enabled && l.policy == Some(cfg.limits)
              && exists p :: p in l.rows && p.id == id && p.owner == owner && p.state.STARTED? && p.start.Start? && now < p.start.startBy
  {
    if exists p :: p in l.rows && p.id == id && p.owner == owner && p.state.STARTED? && p.start.Start? && now < p.start.startBy {
      var p :| p in l.rows && p.id == id && p.owner == owner && p.state.STARTED? && p.start.Start? && now < p.start.startBy;
      var i :| 0 <= i < |l.rows| && l.rows[i] == p;
      OneRowEach(l, at, i);
    }
    var k := Find(l.rows, id);
    if k < |l.rows| { assert l.rows[k] in l.rows; }
  }

  lemma {:induction false} FindAfterReplace(rows: seq<Permit>, i: nat, p: Permit, id: nat)
    requires i < |rows| && p.id == rows[i].id
    ensures Find(rows[i := p], id) == Find(rows, id)
  {
    if i > 0 && rows[0].id != id {
      assert rows[i := p][1..] == rows[1..][i - 1 := p];
      FindAfterReplace(rows[1..], i - 1, p, id);
    } else if i == 0 {
      assert rows[0 := p][1..] == rows[1..];
    }
  }

  /**
   * On every reachable ledger a correctly configured backend admits exactly when all four limits have
   * room on the whole ledger, and otherwise names the least instant at which they all would.
   */
  lemma AdmissionIsExact(l: Ledger, now: nat, cfg: Config, client: Client, owner: nat, id: nat)
    requires Sound(l, now) && CheckedPolicy(l, cfg).Ok? && Find(l.rows, id) == |l.rows|
    ensures AdmitStep(l, cfg, client, owner, id, now).1 ==
            if Admits(l.rows, client, cfg.limits, now) then Ok(Admitted(id))
            else Ok(Denied(FirstAdmissible(l.rows, client, cfg.limits, now)))
  {
    ProjectionIsExact(l.rows, now, RECOVERY_BATCH, client, cfg.limits);
  }

  // ---------------------------------------------------------------- the service

  /** One turn of the recovery loop: row i goes over to what is done, relabelled or not. */
  lemma RecoverFrom(table: seq<Permit>, i: nat, now: nat, batch: nat, done: seq<Permit>)
    requires i < |table|
    ensures done + Recover(table[i..], now, batch) ==
            if Lapsed(table[i], now) && batch > 0
            then (done + [Recovered(table[i], now)]) + Recover(table[i + 1..], now, batch - 1)
            else (done + [table[i]]) + Recover(table[i + 1..], now, batch)
  {
    var rows := table[i..];
    assert rows[0] == table[i] && rows[1..] == table[i + 1..];
    if Lapsed(table[i], now) && batch > 0 {
      var rest := Recover(table[i + 1..], now, batch - 1);
      assert Recover(rows, now, batch) == [Recovered(table[i], now)] + rest;
      assert done + ([Recovered(table[i], now)] + rest) == (done + [Recovered(table[i], now)]) + rest;
    } else {
      var rest := Recover(table[i + 1..], now, batch);
      assert Recover(rows, now, batch) == [table[i]] + rest;
      assert done + ([table[i]] + rest) == (done + [table[i]]) + rest;
    }
  }

  class DurablePrequoteConsumption {
    var policy: Option<Limits>
    var rows: seq<Permit>

    function View(): Ledger reads this { Ledger(policy, rows) }

    constructor ()
      ensures View() == EMPTY
    {
      policy, rows := None, [];
    }

    method Admit(cfg: Config, client: Client, owner: nat, id: nat, now: nat) returns (r: Result<Decision, Error>)
      modifies this
      ensures (View(), r) == AdmitStep(old(View()), cfg, client, owner, id, now)
    {
      var checked := CheckedPolicy(View(), cfg);
      if checked.Err? { return Err(checked.error); }
      var limits := checked.value;
      var recovered := RecoverLapsed(rows, now);
      var seen := VisibleRows(recovered, now);
      var retryAt := ConsumptionRetryAt(seen, client, limits, now);
      if retryAt.Some? {
        policy, rows := Some(limits), recovered;
        return Ok(Denied(retryAt.value));
      }
      if Find(rows, id) < |rows| { return Err(STORAGE_CONFLICT); }
      policy, rows := Some(limits), InsertPermit(recovered, NewPermit(limits, client, owner, id, now));
      return Ok(Admitted(id));
    }

    /** The bounded recovery loop: in id order, at most a hundred lapsed rows change label. */
    static method RecoverLapsed(table: seq<Permit>, now: nat) returns (done: seq<Permit>)
      ensures done == Recover(table, now, RECOVERY_BATCH)
    {
      done := [];
      var taken := 0;
      for i := 0 to |table|
        invariant taken <= RECOVERY_BATCH
        invariant done + Recover(table[i..], now, RECOVERY_BATCH - taken) == Recover(table, now, RECOVERY_BATCH)
      {
        RecoverFrom(table, i, now, RECOVERY_BATCH - taken, done);
        if Lapsed(table[i], now) && taken < RECOVERY_BATCH {
          done := done + [Recovered(table[i], now)];
          taken := taken + 1;
        } else {
          done := done + [table[i]];
        }
      }
      assert table[|table|..] == [];
    }

    method StartPermit(cfg: Config, id: nat, owner: nat, now: nat) returns (r: Result<(), Error>)
      modifies this
      ensures (View(), r) == StartStep(old(View()), cfg, id, owner, now)
    {
      var checked := CheckedPolicy(View(), cfg);
      if checked.Err? { return Err(checked.error); }
      var i := Find(rows, id);
      if i == |rows| || !Startable(rows[i], owner, checked.value, now) { return Err(PREQUOTE_PERMIT_INVALID); }
      policy := Some(checked.value);
      rows := rows[i := Started(rows[i], now)];
      return Ok(());
    }

    method AssertReady(cfg: Config, id: nat, owner: nat, now: nat) returns (r: Result<(), Error>)
      ensures r == ReadyStep(View(), cfg, id, owner, now)
    {
      var checked := PolicyOf(cfg);
      if checked.Err? { return Err(checked.error); }
      if policy != Some(checked.value) { return Err(PREQUOTE_CONSUMPTION_UNAVAILABLE); }
      var i := Find(rows, id);
      if i == |rows| { return Err(PREQUOTE_PERMIT_INVALID); }
      var p := rows[i];
      if p.owner != owner || !p.state.STARTED? || !p.start.Start? || p.start.startBy <= now
         || p.fingerprint != checked.value {
        return Err(PREQUOTE_PERMIT_INVALID);
      }
      return Ok(());
    }

    method FinishPermit(id: nat, owner: nat, report: Report, now: nat) returns (r: Result<(), Error>)
      modifies this
      ensures (View(), r) == FinishStep(old(View()), id, owner, report, now)
    {
      var i := Find(rows, id);
      if i == |rows| || rows[i].owner != owner { return Err(PREQUOTE_PERMIT_INVALID); }
      if rows[i].state.RESERVED? || rows[i].state.STARTED? {
        rows := rows[i := Finished(rows[i], report, now)];
      }
      return Ok(());
    }
  }
}
