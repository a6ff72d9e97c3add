/**
 * The quota arithmetic of prequote consumption: which permits weigh on which limit and until when,
 * and the earliest instant at which one more permit fits under all four limits.
 *
 * `FirstAdmissible` is the reference: count up from now until everything fits. `ConsumptionRetryAt`
 * is what the service runs: sort the expiries, drain them, take the maximum of four answers.
 */
module ConsumptionPolicy {
  import opened Common

  type Client = nat

  datatype Limits = Limits(
    minute: int, day: int, concurrent: int, globalUnits: int,
    reserveMs: int, retries: int, timeoutMs: int)

  predicate ValidLimits(c: Limits) {
    && 1 <= c.minute <= 10000
    && 1 <= c.day <= 1000000
    && 1 <= c.concurrent <= 100
    && c.retries + 1 <= c.globalUnits <= 1000000
    && 1000 <= c.reserveMs <= 300000
    && 0 <= c.retries <= 2
    && 1000 <= c.timeoutMs <= 15000
  }

  /** The table of bounds, checked row by row; the first value out of its bounds refuses them all. */
  method ValidateConsumptionLimits(c: Limits) returns (ok: bool)
    ensures ok == ValidLimits(c)
  {
    var table := [
      (c.minute, 1, 10000), (c.day, 1, 1000000), (c.concurrent, 1, 100),
      (c.globalUnits, c.retries + 1, 1000000), (c.reserveMs, 1000, 300000),
      (c.retries, 0, 2), (c.timeoutMs, 1000, 15000)];
    for i := 0 to |table|
      invariant forall j :: 0 <= j < i ==> table[j].1 <= table[j].0 <= table[j].2
    {
      if table[i].0 < table[i].1 || table[i].0 > table[i].2 {
        assert !(table[i].1 <= table[i].0 <= table[i].2);
        return false;
      }
    }
    assert table[0].1 <= table[0].0 <= table[0].2 && table[1].1 <= table[1].0 <= table[1].2;
    assert table[2].1 <= table[2].0 <= table[2].2 && table[3].1 <= table[3].0 <= table[3].2;
    assert table[4].1 <= table[4].0 <= table[4].2 && table[5].1 <= table[5].0 <= table[5].2;
    assert table[6].1 <= table[6].0 <= table[6].2;
    return true;
  }

  // ---------------------------------------------------------------- the time a routing call may take

  /** Longest run of the adapter from attempt `attempt` on: wait 200 ms x attempt, then time out. */
  function Schedule(timeoutMs: nat, attempt: nat, retries: nat): nat
    requires attempt <= retries + 1
    decreases retries + 1 - attempt
  {
    if attempt == retries + 1 then 0
    else (if attempt > 0 then 200 * attempt else 0) + timeoutMs + Schedule(timeoutMs, attempt + 1, retries)
  }

  /** How long a started permit keeps its slot: the closed form of the schedule plus 15 s. */
  function RoutingProtectionMs(c: Limits): int {
    c.timeoutMs * (c.retries + 1) + 100 * c.retries * (c.retries + 1) + 15000
  }

  lemma {:induction false} ScheduleFrom(timeoutMs: nat, attempt: nat, retries: nat)
    requires attempt <= retries + 1
    ensures Schedule(timeoutMs, attempt, retries)
         == timeoutMs * (retries + 1 - attempt) + 100 * retries * (retries + 1)
            - (if attempt > 0 then 100 * (attempt - 1) * attempt else 0)
    decreases retries + 1 - attempt
  {
    if attempt <= retries {
      ScheduleFrom(timeoutMs, attempt + 1, retries);
      assert timeoutMs * (retries + 1 - attempt) == timeoutMs * (retries - attempt) + timeoutMs;
      assert 100 * attempt * (attempt + 1) == 100 * (attempt - 1) * attempt + 200 * attempt;
    } else {
      assert 100 * (attempt - 1) * attempt == 100 * retries * (retries + 1);
    }
  }

  /** For every number of retries, the protection is the whole schedule plus exactly 15 s. */
  lemma ProtectionCoversSchedule(c: Limits)
    requires c.retries >= 0 && c.timeoutMs >= 0
    ensures RoutingProtectionMs(c) == Schedule(c.timeoutMs, 0, c.retries) + 15000
  {
    ScheduleFrom(c.timeoutMs, 0, c.retries);
  }

  // ---------------------------------------------------------------- permits and the quotas they weigh on

  datatype PermitState = RESERVED | STARTED | FINISHED | CANCELLED | EXPIRED | ABANDONED

  /** The columns written together by the start of a permit. */
  datatype StartMark = NotStarted | Start(startedAt: nat, startBy: nat, protectedUntil: nat)

  datatype Report = Report(routingStarted: bool, published: bool)

  datatype Permit = Permit(
    id: nat, client: Client, owner: nat, fingerprint: Limits, state: PermitState,
    units: nat, routingBudgetMs: nat, reservedAt: nat, reserveExpiresAt: nat,
    start: StartMark, finishedAt: Option<nat>, report: Option<Report>)

  datatype Quota = Minute | Day | Slots | Units

  const MINUTE_MS: nat := 60000
  const DAY_MS: nat := 86400000

  function LimitOf(q: Quota, c: Limits): int {
    match q
    case Minute => c.minute
    case Day => c.day
    case Slots => c.concurrent
    case Units => c.globalUnits
  }

  /** What one more permit needs of each quota. */
  function NeedOf(q: Quota, c: Limits): int {
    if q.Units? then c.retries + 1 else 1
  }

  /** Until when a permit weighs on a quota; 0 when it does not weigh at all. */
  function Until(p: Permit, q: Quota): nat {
    if p.start.Start? then
      match q
      case Minute => p.start.startedAt + MINUTE_MS
      case Slots => p.start.protectedUntil
      case _ => p.start.startedAt + DAY_MS
    else if p.state.RESERVED? then p.reserveExpiresAt
    else 0
  }

  function Weight(p: Permit, q: Quota): nat { if q.Units? then p.units else 1 }

  /** The unit budget is shared by everyone; the other quotas belong to one integration. */
  predicate Concerns(p: Permit, client: Client, q: Quota) { q.Units? || p.client == client }

  function Share(p: Permit, client: Client, q: Quota, t: nat): nat {
    if Concerns(p, client, q) && Until(p, q) > t then Weight(p, q) else 0
  }

  /** What a quota holds at time t if nothing else happens to these rows. */
  function Usage(rows: seq<Permit>, client: Client, q: Quota, t: nat): nat {
    if rows == [] then 0 else Share(rows[0], client, q, t) + Usage(rows[1..], client, q, t)
  }

  predicate Fits(rows: seq<Permit>, client: Client, q: Quota, c: Limits, t: nat) {
    Usage(rows, client, q, t) + NeedOf(q, c) <= LimitOf(q, c)
  }

  /** One more permit of this integration fits under all four limits at time t. */
  predicate Admits(rows: seq<Permit>, client: Client, c: Limits, t: nat) {
    && Fits(rows, client, Minute, c, t)
    && Fits(rows, client, Day, c, t)
    && Fits(rows, client, Slots, c, t)
    && Fits(rows, client, Units, c, t)
  }

  lemma {:induction false} UsageAntitone(rows: seq<Permit>, client: Client, q: Quota, t: nat, later: nat)
    requires t <= later
    ensures Usage(rows, client, q, later) <= Usage(rows, client, q, t)
  {
    if rows != [] { UsageAntitone(rows[1..], client, q, t, later); }
  }

  lemma {:induction false} UsageConcat(a: seq<Permit>, b: seq<Permit>, client: Client, q: Quota, t: nat)
    ensures Usage(a + b, client, q, t) == Usage(a, client, q, t) + Usage(b, client, q, t)
  {
    if a == [] {
      assert a + b == b;
    } else {
      assert (a + b)[1..] == a[1..] + b;
      UsageConcat(a[1..], b, client, q, t);
    }
  }

  /** The instant by which every row has stopped weighing on the quota. */
  function LastUntil(rows: seq<Permit>, q: Quota): nat {
    if rows == [] then 0 else Max(Until(rows[0], q), LastUntil(rows[1..], q))
  }

  lemma {:induction false} UsageEnds(rows: seq<Permit>, client: Client, q: Quota, t: nat)
    requires LastUntil(rows, q) <= t
    ensures Usage(rows, client, q, t) == 0
  {
    if rows != [] { UsageEnds(rows[1..], client, q, t); }
  }

  function Horizon(rows: seq<Permit>): nat {
    Max(Max(LastUntil(rows, Minute), LastUntil(rows, Day)), Max(LastUntil(rows, Slots), LastUntil(rows, Units)))
  }

  lemma AdmitsAtHorizon(rows: seq<Permit>, client: Client, c: Limits, t: nat)
    requires ValidLimits(c) && Horizon(rows) <= t
    ensures Admits(rows, client, c, t)
  {
    UsageEnds(rows, client, Minute, t);
    UsageEnds(rows, client, Day, t);
    UsageEnds(rows, client, Slots, t);
    UsageEnds(rows, client, Units, t);
  }

  /** The reference answer: the first instant from t on at which everything fits. */
  ghost function FirstAdmissible(rows: seq<Permit>, client: Client, c: Limits, t: nat): (first: nat)
    requires ValidLimits(c)
    ensures t <= first && Admits(rows, client, c, first)
    ensures forall u :: t <= u < first ==> !Admits(rows, client, c, u)
    decreases Horizon(rows) - t
  {
    if Admits(rows, client, c, t) then t
    else
      AdmitsAtHorizonUnless(rows, client, c, t);
      FirstAdmissible(rows, client, c, t + 1)
  }

  lemma AdmitsAtHorizonUnless(rows: seq<Permit>, client: Client, c: Limits, t: nat)
    requires ValidLimits(c) && !Admits(rows, client, c, t)
    ensures t < Horizon(rows)
  {
    if Horizon(rows) <= t { AdmitsAtHorizon(rows, client, c, t); }
  }

  /** Once everything fits, it keeps fitting while no permit is added. */
  lemma AdmitsPersists(rows: seq<Permit>, client: Client, c: Limits, t: nat, later: nat)
    requires t <= later && Admits(rows, client, c, t)
    ensures Admits(rows, client, c, later)
  {
    UsageAntitone(rows, client, Minute, t, later);
    UsageAntitone(rows, client, Day, t, later);
    UsageAntitone(rows, client, Slots, t, later);
    UsageAntitone(rows, client, Units, t, later);
  }

  /** So the first admissible instant splits the future exactly in two. */
  lemma FirstAdmissibleSplits(rows: seq<Permit>, client: Client, c: Limits, now: nat, t: nat)
    requires ValidLimits(c) && now <= t
    ensures Admits(rows, client, c, t) <==> FirstAdmissible(rows, client, c, now) <= t
  {
    var first := FirstAdmissible(rows, client, c, now);
    if first <= t { AdmitsPersists(rows, client, c, first, t); }
  }

  /** Rows that weigh the same from now on give the same answers. */
  lemma SameUsageSameAnswer(a: seq<Permit>, b: seq<Permit>, client: Client, c: Limits, now: nat)
    requires ValidLimits(c)
    requires forall q: Quota, t: nat :: now <= t ==> Usage(a, client, q, t) == Usage(b, client, q, t)
    ensures Admits(a, client, c, now) == Admits(b, client, c, now)
    ensures FirstAdmissible(a, client, c, now) == FirstAdmissible(b, client, c, now)
  {
    var x, y := FirstAdmissible(a, client, c, now), FirstAdmissible(b, client, c, now);
    assert forall t: nat :: now <= t ==> Admits(a, client, c, t) == Admits(b, client, c, t);
    FirstAdmissibleSplits(a, client, c, now, y);
    FirstAdmissibleSplits(b, client, c, now, x);
  }

  // ---------------------------------------------------------------- the sort-and-drain answer

  datatype Entry = Entry(units: nat, until: nat)

  datatype Instant = At(t: nat) | Never

  function Load(es: seq<Entry>, t: nat): nat {
    if es == [] then 0 else (if es[0].until > t then es[0].units else 0) + Load(es[1..], t)
  }

  function Total(es: seq<Entry>): nat {
    if es == [] then 0 else es[0].units + Total(es[1..])
  }

  predicate Sorted(es: seq<Entry>) {
    forall i, j :: 0 <= i < j < |es| ==> es[i].until <= es[j].until
  }

  function InsertByUntil(e: Entry, es: seq<Entry>): seq<Entry> {
    if es == [] || e.until < es[0].until then [e] + es
    else [es[0]] + InsertByUntil(e, es[1..])
  }

  /** Stands for the sort built into the platform: the same entries, ordered by expiry. */
  function SortByUntil(es: seq<Entry>): seq<Entry> {
    if es == [] then [] else InsertByUntil(es[|es| - 1], SortByUntil(es[..|es| - 1]))
  }

  ghost predicate Below(bound: nat, es: seq<Entry>) {
    forall x :: x in multiset(es) ==> bound <= x.until
  }

  /** Sortedness, read from the front. */
  lemma SortedFromFront(e: Entry, es: seq<Entry>)
    ensures Sorted([e] + es) <==> Sorted(es) && Below(e.until, es)
  {
    var all := [e] + es;
    if Sorted(es) && Below(e.until, es) {
      forall j | 0 <= j < |es| ensures e.until <= es[j].until { assert es[j] in multiset(es); }
    }
    if Sorted(all) {
      forall i, j | 0 <= i < j < |es| ensures es[i].until <= es[j].until {
        assert es[i] == all[i + 1] && es[j] == all[j + 1];
      }
      forall x | x in multiset(es) ensures e.until <= x.until {
        assert x in es;
        var j :| 0 <= j < |es| && es[j] == x;
        assert all[0] == e && all[j + 1] == x;
      }
    }
  }

  lemma {:induction false} InsertByUntilElements(e: Entry, es: seq<Entry>)
    ensures multiset(InsertByUntil(e, es)) == multiset{e} + multiset(es)
  {
    if !(es == [] || e.until < es[0].until) {
      InsertByUntilElements(e, es[1..]);
      assert es == [es[0]] + es[1..];
    }
  }

  lemma {:induction false} InsertByUntilKeeps(e: Entry, es: seq<Entry>)
    requires Sorted(es)
    ensures Sorted(InsertByUntil(e, es))
  {
    if es != [] {
      var first, rest := es[0], es[1..];
      assert es == [first] + rest;
      SortedFromFront(first, rest);
      if e.until < first.until {
        SortedFromFront(e, es);
      } else {
        InsertByUntilKeeps(e, rest);
        InsertByUntilElements(e, rest);
        SortedFromFront(first, InsertByUntil(e, rest));
      }
    }
  }

  lemma {:induction false} SortByUntilSorts(es: seq<Entry>)
    ensures Sorted(SortByUntil(es)) && multiset(SortByUntil(es)) == multiset(es)
    ensures |SortByUntil(es)| == |es|
  {
    if es != [] {
      var front := es[..|es| - 1];
      SortByUntilSorts(front);
      InsertByUntilKeeps(es[|es| - 1], SortByUntil(front));
      InsertByUntilElements(es[|es| - 1], SortByUntil(front));
      assert es == front + [es[|es| - 1]];
    }
    assert |SortByUntil(es)| == |multiset(SortByUntil(es))| == |multiset(es)| == |es|;
  }

  lemma {:induction false} LoadRemove(es: seq<Entry>, i: nat, t: nat)
    requires i < |es|
    ensures Load(es, t) == (if es[i].until > t then es[i].units else 0) + Load(es[..i] + es[i + 1..], t)
  {
    if i > 0 {
      LoadRemove(es[1..], i - 1, t);
      assert (es[..i] + es[i + 1..])[1..] == es[1..][..i - 1] + es[1..][i..];
    } else {
      assert es[..0] + es[1..] == es[1..];
    }
  }

  /** The order of the entries does not change what they weigh. */
  lemma {:induction false} LoadOfPermutation(a: seq<Entry>, b: seq<Entry>, t: nat)
    requires multiset(a) == multiset(b)
    ensures Load(a, t) == Load(b, t)
    decreases |a|
  {
    if a == [] {
      assert |multiset(b)| == 0;
    } else {
      assert a[0] in multiset(b);
      var i :| 0 <= i < |b| && b[i] == a[0];
      LoadRemove(b, i, t);
      assert a == [a[0]] + a[1..];
      assert b == b[..i] + [b[i]] + b[i + 1..];
      assert multiset(a) == multiset{a[0]} + multiset(a[1..]);
      assert multiset(b) == multiset{a[0]} + multiset(b[..i] + b[i + 1..]);
      assert multiset(a[1..]) == multiset(a) - multiset{a[0]};
      LoadOfPermutation(a[1..], b[..i] + b[i + 1..], t);
    }
  }

  lemma {:induction false} LoadBeforeAny(es: seq<Entry>, t: nat)
    requires forall e :: e in es ==> e.until > t
    ensures Load(es, t) == Total(es)
  {
    if es != [] { LoadBeforeAny(es[1..], t); }
  }

  lemma {:induction false} LoadAfterAll(es: seq<Entry>, t: nat)
    requires forall e :: e in es ==> e.until <= t
    ensures Load(es, t) == 0
  {
    if es != [] { LoadAfterAll(es[1..], t); }
  }

  lemma {:induction false} LoadConcat(a: seq<Entry>, b: seq<Entry>, t: nat)
    ensures Load(a + b, t) == Load(a, t) + Load(b, t)
  {
    if a == [] {
      assert a + b == b;
    } else {
      assert (a + b)[1..] == a[1..] + b;
      LoadConcat(a[1..], b, t);
    }
  }

  /** While a sorted tail has not begun to expire it weighs in full; the drained head may linger. */
  lemma DrainedLoad(es: seq<Entry>, k: nat, t: nat)
    requires Sorted(es) && k < |es|
    ensures t < es[k].until ==> Total(es[k..]) <= Load(es, t)
    ensures es[k].until <= t ==> Load(es, t) <= Total(es[k + 1..])
  {
    if t < es[k].until {
      assert es == es[..k] + es[k..];
      LoadConcat(es[..k], es[k..], t);
      LoadBeforeAny(es[k..], t);
    } else {
      assert es == es[..k + 1] + es[k + 1..];
      LoadConcat(es[..k + 1], es[k + 1..], t);
      LoadAfterAll(es[..k + 1], t);
      LoadAtMostTotal(es[k + 1..], t);
    }
  }

  lemma {:induction false} LoadAtMostTotal(es: seq<Entry>, t: nat)
    ensures Load(es, t) <= Total(es)
  {
    if es != [] { LoadAtMostTotal(es[1..], t); }
  }

  /** r is the least instant from now on at which the entries leave room for `need`. */
  ghost predicate LeastFree(es: seq<Entry>, limit: int, need: int, now: nat, r: Instant) {
    match r
    case At(t) =>
      && now <= t
      && Load(es, t) + need <= limit
      && forall u :: now <= u < t ==> Load(es, u) + need > limit
    case Never => forall u :: now <= u ==> Load(es, u) + need > limit
  }

  /** Draining the sorted entry k frees enough, and nothing before did: its expiry is the answer. */
  lemma DrainAnswers(given: seq<Entry>, sorted: seq<Entry>, k: nat, limit: int, need: int, now: nat)
    requires Sorted(sorted) && multiset(sorted) == multiset(given) && k < |sorted|
    requires forall e :: e in given ==> e.until > now
    requires Total(sorted[k..]) + need > limit >= Total(sorted[k + 1..]) + need
    ensures LeastFree(given, limit, need, now, At(sorted[k].until))
  {
    var t := sorted[k].until;
    assert sorted[k] in multiset(sorted);
    assert sorted[k] in given;
    DrainedLoad(sorted, k, t);
    LoadOfPermutation(sorted, given, t);
    forall u: nat | now <= u < t ensures Load(given, u) + need > limit {
      DrainedLoad(sorted, k, u);
      LoadOfPermutation(sorted, given, u);
    }
  }

  /**
   * Sums the entries, and if they leave no room sorts them in place by expiry and drains them one by
   * one. The answer is exactly the least instant that leaves room, or Never when none does.
   */
  method AvailableAt(entries: array<Entry>, limit: int, need: int, now: nat) returns (r: Instant)
    requires forall e :: e in entries[..] ==> e.until > now
    modifies entries
    ensures multiset(entries[..]) == multiset(old(entries[..]))
    ensures LeastFree(old(entries[..]), limit, need, now, r)
    ensures r.Never? <==> need > limit
  {
    ghost var given := entries[..];
    var used := TotalUnits(entries);
    LoadBeforeAny(given, now);
    if used + need <= limit { return At(now); }
    SortInPlace(entries);
    ghost var sorted := entries[..];
    LoadBeforeAnyOf(sorted, given, now);
    assert sorted[0..] == sorted;
    for k := 0 to entries.Length
      invariant entries[..] == sorted
      invariant used == Total(sorted[k..])
      invariant used + need > limit
    {
      assert sorted[k..] == [sorted[k]] + sorted[k + 1..];
      used := used - entries[k].units;
      if used + need <= limit {
        DrainAnswers(given, sorted, k, limit, need, now);
        return At(entries[k].until);
      }
    }
    return Never;
  }

  method TotalUnits(entries: array<Entry>) returns (used: int)
    ensures used == Total(entries[..])
  {
    used := 0;
    for i := 0 to entries.Length
      invariant used + Total(entries[..][i..]) == Total(entries[..])
    {
      assert entries[..][i..] == [entries[i]] + entries[..][i + 1..];
      used := used + entries[i].units;
    }
  }

  method SortInPlace(entries: array<Entry>)
    modifies entries
    ensures Sorted(entries[..]) && multiset(entries[..]) == multiset(old(entries[..]))
  {
    var sorted := SortByUntil(entries[..]);
    SortByUntilSorts(entries[..]);
    forall i | 0 <= i < entries.Length { entries[i] := sorted[i]; }
    assert entries[..] == sorted;
  }

  lemma LoadBeforeAnyOf(a: seq<Entry>, b: seq<Entry>, now: nat)
    requires multiset(a) == multiset(b) && forall e :: e in b ==> e.until > now
    ensures Total(a) == Total(b)
  {
    forall e | e in a ensures e.until > now { assert e in multiset(a); }
    LoadOfPermutation(a, b, now);
    LoadBeforeAny(a, now);
    LoadBeforeAny(b, now);
  }

  // ---------------------------------------------------------------- one projection for four quotas

  /** The entries a quota sees: rows that concern it and have not expired by t. */
  function EntriesOf(rows: seq<Permit>, client: Client, q: Quota, t: nat): seq<Entry> {
    if rows == [] then []
    else
      (if Concerns(rows[0], client, q) && Until(rows[0], q) > t
       then [Entry(Weight(rows[0], q), Until(rows[0], q))] else [])
      + EntriesOf(rows[1..], client, q, t)
  }

  lemma {:induction false} EntriesWeighTheSame(rows: seq<Permit>, client: Client, q: Quota, t: nat, u: nat)
    requires t <= u
    ensures Load(EntriesOf(rows, client, q, t), u) == Usage(rows, client, q, u)
    ensures forall e :: e in EntriesOf(rows, client, q, t) ==> e.until > t
  {
    if rows != [] {
      EntriesWeighTheSame(rows[1..], client, q, t, u);
      var head := if Concerns(rows[0], client, q) && Until(rows[0], q) > t
                  then [Entry(Weight(rows[0], q), Until(rows[0], q))] else [];
      LoadConcat(head, EntriesOf(rows[1..], client, q, t), u);
    }
  }

  /** One of the four answers: the least instant from now on at which this quota has room. */
  method QuotaAvailableAt(rows: seq<Permit>, client: Client, q: Quota, c: Limits, now: nat) returns (r: nat)
    requires ValidLimits(c)
    ensures now <= r && Fits(rows, client, q, c, r)
    ensures forall u :: now <= u < r ==> !Fits(rows, client, q, c, u)
  {
    var es := EntriesOf(rows, client, q, now);
    var entries := new Entry[|es|](i requires 0 <= i < |es| => es[i]);
    assert entries[..] == es;
    EntriesWeighTheSame(rows, client, q, now, now);
    var answer := AvailableAt(entries, LimitOf(q, c), NeedOf(q, c), now);
    forall u: nat ensures now <= u ==> Load(es, u) == Usage(rows, client, q, u) {
      if now <= u { EntriesWeighTheSame(rows, client, q, now, u); }
    }
    r := answer.t;
  }

  /**
   * Absent exactly when all four limits admit now; otherwise the least later instant at which all
   * four would admit with no new permits. For valid limits the answer is always finite.
   */
  method ConsumptionRetryAt(rows: seq<Permit>, client: Client, c: Limits, now: nat) returns (retry: Option<nat>)
    requires ValidLimits(c)
    ensures retry == if Admits(rows, client, c, now) then None else Some(FirstAdmissible(rows, client, c, now))
  {
    var minute := QuotaAvailableAt(rows, client, Minute, c, now);
    var day := QuotaAvailableAt(rows, client, Day, c, now);
    var slots := QuotaAvailableAt(rows, client, Slots, c, now);
    var units := QuotaAvailableAt(rows, client, Units, c, now);
    var at := Max(Max(minute, day), Max(slots, units));
    UsageAntitone(rows, client, Minute, minute, at);
    UsageAntitone(rows, client, Day, day, at);
    UsageAntitone(rows, client, Slots, slots, at);
    UsageAntitone(rows, client, Units, units, at);
    assert Admits(rows, client, c, at);
    assert forall u :: now <= u < at ==> !Admits(rows, client, c, u);
    retry := if at > now then Some(at) else None;
  }
}
