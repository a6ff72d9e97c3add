/**
 * Delivery of recorded events to the client that owns them: discovery from the outbox, time-bounded
 * leases, a send outside any transaction, the record of what happened, bounded backoff and rescue.
 *
 * Each transaction is one atomic step. A worker between its two transactions is a `Holder`; a crash
 * makes it disappear. It is assumed that a holder records before its lease expires, or never; and
 * manual pushes are those on PENDING rows and on events with no row.
 */
module Webhooks {
  import opened Common

  // ---------------------------------------------------------------- how an answer is read

  const MINUTE_MS: nat := 60000
  const MAX_ATTEMPTS: nat := 5

  /** Delay before the next attempt once `attemptsMade` were made; absent past the end of the table. */
  function BackoffMs(attemptsMade: nat): Option<nat> {
    match attemptsMade
    case 1 => Some(MINUTE_MS)
    case 2 => Some(5 * MINUTE_MS)
    case 3 => Some(15 * MINUTE_MS)
    case 4 => Some(60 * MINUTE_MS)
    case _ => None
  }

  datatype Disposition = SUCCESS | RETRYABLE | TERMINAL

  function ClassifyStatus(status: int): Disposition {
    if 200 <= status <= 299 then SUCCESS
    else if status in {408, 425, 429} then RETRYABLE
    else if 500 <= status <= 599 then RETRYABLE
    else TERMINAL
  }

  datatype FailureKind = HTTP_STATUS(status: Option<int>) | TIMEOUT | NETWORK | INVALID_ENDPOINT

  datatype Outcome = Succeeded | Failed(kind: FailureKind)

  function DispositionOf(outcome: Outcome): Disposition {
    match outcome
    case Succeeded => SUCCESS
    case Failed(HTTP_STATUS(status)) => if status.Some? && status.value != 0 then ClassifyStatus(status.value) else TERMINAL
    case Failed(INVALID_ENDPOINT) => TERMINAL
    case Failed(_) => RETRYABLE
  }

  /** What came back from the network: a status, or why there was none. */
  datatype Reply = Status(code: int) | NoAnswer(kind: FailureKind)

  /** Success is any 2xx; every other status is a failure that carries it. */
  function OutcomeOf(reply: Reply): Outcome {
    match reply
    case Status(code) => if 200 <= code <= 299 then Succeeded else Failed(HTTP_STATUS(Some(code)))
    case NoAnswer(kind) => Failed(if kind.HTTP_STATUS? then HTTP_STATUS(None) else kind)
  }

  datatype DeliveryState = PENDING | DELIVERED | EXHAUSTED

  datatype NextStep = Deliver | Retry(at: nat) | Stop

  function NextStepAfter(d: Disposition, attemptsMade: nat, now: nat): NextStep {
    match d
    case SUCCESS => Deliver
    case TERMINAL => Stop
    case RETRYABLE =>
      if attemptsMade >= MAX_ATTEMPTS || BackoffMs(attemptsMade).None? then Stop
      else Retry(now + BackoffMs(attemptsMade).value)
  }

  // ---------------------------------------------------------------- tables

  datatype Event = Event(client: nat, occurredAt: nat)

  /** A client has at most one endpoint. */
  datatype Endpoint = Endpoint(enabled: bool, hasSecret: bool, deliverFrom: nat)

  datatype LeaseMark = LeaseMark(worker: nat, expiresAt: nat)

  datatype Delivery = Delivery(
    client: nat, state: DeliveryState, attemptCount: nat, nextAttemptAt: Option<nat>, lease: Option<LeaseMark>,
    lastAttemptAt: Option<nat>, deliveredAt: Option<nat>, exhaustedAt: Option<nat>)

  datatype Attempt = Attempt(event: nat, number: Option<nat>, at: nat, outcome: Outcome)

  datatype Tables = Tables(
    events: map<nat, Event>, endpoints: map<nat, Endpoint>, deliveries: map<nat, Delivery>, attempts: seq<Attempt>)

  /** What a worker carries from the lease to the record. */
  datatype Holder = Holder(
    event: nat, worker: nat, attemptCount: nat, deliveredAt: Option<nat>, exhaustedAt: Option<nat>, expiresAt: nat)

  predicate Ready(t: Tables, client: nat) {
    client in t.endpoints && t.endpoints[client].enabled && t.endpoints[client].hasSecret
  }

  predicate LeaseFree(d: Delivery, now: nat) { d.lease.None? || d.lease.value.expiresAt <= now }

  /** Tracked work that is due and that nobody holds. */
  predicate Due(t: Tables, e: nat, now: nat) {
    && e in t.deliveries
    && t.deliveries[e].state.PENDING?
    && t.deliveries[e].nextAttemptAt.Some? && t.deliveries[e].nextAttemptAt.value <= now
    && LeaseFree(t.deliveries[e], now)
    && Ready(t, t.deliveries[e].client)
  }

  /** An eligible event with no transport state yet. */
  predicate Fresh(t: Tables, e: nat) {
    && e in t.events && e !in t.deliveries
    && Ready(t, t.events[e].client)
    && t.events[e].occurredAt >= t.endpoints[t.events[e].client].deliverFrom
  }

  predicate Candidate(t: Tables, e: nat, now: nat) { Due(t, e, now) || Fresh(t, e) }

  /** What one pickup may choose: the longest-due row, or else the oldest untracked event. */
  ghost predicate Picked(t: Tables, e: nat, now: nat) {
    if exists d :: Due(t, d, now) then
      Due(t, e, now) && forall d :: Due(t, d, now) ==> t.deliveries[e].nextAttemptAt.value <= t.deliveries[d].nextAttemptAt.value
    else
      Fresh(t, e) && forall f :: Fresh(t, f) ==> t.events[e].occurredAt <= t.events[f].occurredAt
  }

  // ---------------------------------------------------------------- transactions

  function Leased(t: Tables, e: nat, worker: nat, now: nat, leaseMs: nat): Tables
    requires Candidate(t, e, now)
  {
    var mark := Some(LeaseMark(worker, now + leaseMs));
    if e in t.deliveries then t.(deliveries := t.deliveries[e := t.deliveries[e].(lease := mark)])
    else t.(deliveries := t.deliveries[e :=
              Delivery(t.events[e].client, PENDING, 0, Some(now), mark, None, None, None)])
  }

  function HolderOf(t: Tables, e: nat, worker: nat, now: nat, leaseMs: nat): Holder
    requires Candidate(t, e, now)
  {
    Holder(e, worker, if e in t.deliveries then t.deliveries[e].attemptCount else 0, None, None, now + leaseMs)
  }

  function Recorded(t: Tables, h: Holder, outcome: Outcome, now: nat): Tables
    requires h.event in t.deliveries
  {
    var d := t.deliveries[h.event];
    var number := h.attemptCount + 1;
    var step := NextStepAfter(DispositionOf(outcome), number, now);
    t.(attempts := t.attempts + [Attempt(h.event, Some(number), now, outcome)],
       deliveries := t.deliveries[h.event := Delivery(
         d.client,
         match step case Deliver => DELIVERED case Retry(_) => PENDING case Stop => EXHAUSTED,
         number,
         if step.Retry? then Some(step.at) else None,
         None,
         Some(now),
         if step.Deliver? && h.deliveredAt.None? then Some(now) else d.deliveredAt,
         if step.Deliver? then None
         else if step.Stop? && h.exhaustedAt.None? then Some(now) else d.exhaustedAt)])
  }

  datatype PushAnswer = NotFound | Skipped | Busy | OutOfScope | Untracked | Taken(holder: Holder)

  /** The first half of a manual push: what it may do, and the lease it takes on a PENDING row. */
  function PushStep(t: Tables, e: nat, worker: nat, now: nat, leaseMs: nat): (Tables, PushAnswer) {
    if e !in t.events then (t, NotFound)
    else if !Ready(t, t.events[e].client) then (t, Skipped)
    else if e !in t.deliveries then (t, Untracked)
    else
      var d := t.deliveries[e];
      if !LeaseFree(d, now) then (t, Busy)
      else if !d.state.PENDING? then (t, OutOfScope)
      else
        (t.(deliveries := t.deliveries[e := d.(lease := Some(LeaseMark(worker, now + leaseMs)))]),
         Taken(Holder(e, worker, d.attemptCount, d.deliveredAt, d.exhaustedAt, now + leaseMs)))
  }

  datatype RescueAnswer = NO_DELIVERY | ALREADY_DELIVERED | ALREADY_PENDING | RESCHEDULED(attemptCount: nat)

  function RescueStep(t: Tables, e: nat, now: nat): (Tables, RescueAnswer) {
    if e !in t.deliveries then (t, NO_DELIVERY)
    else
      var d := t.deliveries[e];
      match d.state
      case DELIVERED => (t, ALREADY_DELIVERED)
      case PENDING => (t, ALREADY_PENDING)
      case EXHAUSTED =>
        (t.(deliveries := t.deliveries[e :=
              d.(state := PENDING, nextAttemptAt := Some(now), exhaustedAt := None, lease := None)]),
         RESCHEDULED(d.attemptCount))
  }

  // ---------------------------------------------------------------- all workers at once

  datatype Hub = Hub(clock: nat, tables: Tables, holders: map<nat, Holder>)

  datatype Step =
    | Tick(to: nat)
    | Happen(event: nat, client: nat)
    | Configure(client: nat, endpoint: Endpoint)
    | Lease(hid: nat, event: nat, worker: nat, leaseMs: nat)
    | Push(hid: nat, event: nat, worker: nat, leaseMs: nat)
    | PushUntracked(event: nat, reply: Reply)
    | Record(hid: nat, reply: Reply)
    | Crash(hid: nat)
    | Rescue(event: nat)

  const START := Hub(0, Tables(map[], map[], map[], []), map[])

  predicate Live(h: Hub, hid: nat) { hid in h.holders && h.clock < h.holders[hid].expiresAt }

  function Apply(h: Hub, step: Step): Hub {
    var t := h.tables;
    match step
    case Tick(to) => if to < h.clock then h else h.(clock := to)
    case Happen(e, client) =>
      if e in t.events then h else h.(tables := t.(events := t.events[e := Event(client, h.clock)]))
    case Configure(client, endpoint) => h.(tables := t.(endpoints := t.endpoints[client := endpoint]))
    case Lease(hid, e, worker, leaseMs) =>
      // SKIP LOCKED may step over better choices, so any candidate can be the one picked up.
      if hid in h.holders || leaseMs == 0 || !Candidate(t, e, h.clock) then h
      else h.(tables := Leased(t, e, worker, h.clock, leaseMs),
              holders := h.holders[hid := HolderOf(t, e, worker, h.clock, leaseMs)])
    case Push(hid, e, worker, leaseMs) =>
      var (after, answer) := PushStep(t, e, worker, h.clock, leaseMs);
      if hid in h.holders || leaseMs == 0 || !answer.Taken? then h
      else h.(tables := after, holders := h.holders[hid := answer.holder])
    case PushUntracked(e, reply) =>
      if !PushStep(t, e, 0, h.clock, 1).1.Untracked? then h
      else h.(tables := t.(attempts := t.attempts + [Attempt(e, None, h.clock, OutcomeOf(reply))]))
    case Record(hid, reply) =>
      if !Live(h, hid) || h.holders[hid].event !in t.deliveries then h
      else Hub(h.clock, Recorded(t, h.holders[hid], OutcomeOf(reply), h.clock), h.holders - {hid})
    case Crash(hid) => h.(holders := h.holders - {hid})
    case Rescue(e) => h.(tables := RescueStep(t, e, h.clock).0)
  }

  function Run(h: Hub, steps: seq<Step>): Hub
    decreases |steps|
  {
    if steps == [] then h else Run(Apply(h, steps[0]), steps[1..])
  }

  // ---------------------------------------------------------------- the invariant

  /** Ordinals of the tracked attempts on an event, oldest first. */
  function Numbers(attempts: seq<Attempt>, e: nat): seq<nat> {
    if attempts == [] then []
    else
      Numbers(attempts[..|attempts| - 1], e)
      + (var a := attempts[|attempts| - 1]; if a.event == e && a.number.Some? then [a.number.value] else [])
  }

  function UpTo(n: nat): seq<nat> { if n == 0 then [] else UpTo(n - 1) + [n] }

  predicate HandedOver(attempts: seq<Attempt>, e: nat) {
    exists i :: 0 <= i < |attempts| && attempts[i].event == e && attempts[i].number.Some? && attempts[i].outcome.Succeeded?
  }

  predicate WellFormed(d: Delivery) {
    && (d.state.PENDING? <==> d.nextAttemptAt.Some?)
    && (d.deliveredAt.Some? <==> d.state.DELIVERED?)
    && (d.exhaustedAt.Some? <==> d.state.EXHAUSTED?)
    && (!d.state.PENDING? ==> d.lease.None? && d.attemptCount >= 1)
    && (d.lastAttemptAt.Some? <==> d.attemptCount > 0)
  }

  ghost predicate RowSound(t: Tables, e: nat) {
    if e in t.deliveries then
      && WellFormed(t.deliveries[e])
      && e in t.events && t.deliveries[e].client == t.events[e].client
      && Numbers(t.attempts, e) == UpTo(t.deliveries[e].attemptCount)
      && (t.deliveries[e].state.DELIVERED? ==> HandedOver(t.attempts, e))
    else Numbers(t.attempts, e) == []
  }

  /** A live holder's copy is the row as it still is. */
  ghost predicate HolderSound(h: Hub, hid: nat)
    requires hid in h.holders
  {
    var x := h.holders[hid];
    && x.deliveredAt.None? && x.exhaustedAt.None?
    && (h.clock < x.expiresAt ==>
          && x.event in h.tables.deliveries
          && h.tables.deliveries[x.event].state.PENDING?
          && h.tables.deliveries[x.event].attemptCount == x.attemptCount
          && h.tables.deliveries[x.event].lease == Some(LeaseMark(x.worker, x.expiresAt)))
  }

  ghost predicate OneHolderEach(h: Hub) {
    forall a, b :: a in h.holders && b in h.holders && a != b && Live(h, a) && Live(h, b) ==>
      h.holders[a].event != h.holders[b].event
  }

  ghost predicate Sound(h: Hub) {
    && (forall e: nat :: RowSound(h.tables, e))
    && (forall hid :: hid in h.holders ==> HolderSound(h, hid))
    && OneHolderEach(h)
  }

  lemma NumbersOfAppend(attempts: seq<Attempt>, a: Attempt, e: nat)
    ensures Numbers(attempts + [a], e) ==
            Numbers(attempts, e) + (if a.event == e && a.number.Some? then [a.number.value] else [])
    ensures HandedOver(attempts, e) ==> HandedOver(attempts + [a], e)
    ensures a.event == e && a.number.Some? && a.outcome.Succeeded? ==> HandedOver(attempts + [a], e)
  {
    var more := attempts + [a];
    assert more[..|more| - 1] == attempts;
    if HandedOver(attempts, e) {
      var i :| 0 <= i < |attempts| && attempts[i].event == e && attempts[i].number.Some? && attempts[i].outcome.Succeeded?;
      assert more[i] == attempts[i];
    }
    assert more[|attempts|] == a;
  }

  /** Taking a lease on one candidate or PENDING row, whoever takes it. */
  lemma TakeIsSound(h: Hub, hid: nat, t: Tables, x: Holder)
    requires Sound(h) && hid !in h.holders && h.clock < x.expiresAt
    requires x.event in h.tables.deliveries ==> LeaseFree(h.tables.deliveries[x.event], h.clock)
    requires t == h.tables.(deliveries := t.deliveries) && x.event in t.deliveries
    requires forall e :: e != x.event ==> (e in t.deliveries <==> e in h.tables.deliveries)
    requires forall e :: e != x.event && e in t.deliveries ==> t.deliveries[e] == h.tables.deliveries[e]
    requires RowSound(t, x.event) && HolderSound(Hub(h.clock, t, map[hid := x]), hid)
    ensures Sound(Hub(h.clock, t, h.holders[hid := x]))
  {
    var g := Hub(h.clock, t, h.holders[hid := x]);
    forall e: nat ensures RowSound(t, e) { assert RowSound(h.tables, e); }
    forall other | other in g.holders ensures HolderSound(g, other) {
      if other != hid { assert HolderSound(h, other); }
    }
    forall a, b | a in g.holders && b in g.holders && a != b && Live(g, a) && Live(g, b)
      ensures g.holders[a].event != g.holders[b].event
    {
      if a == hid { assert HolderSound(h, b); }
      if b == hid { assert HolderSound(h, a); }
    }
  }

  /** A handover is DELIVERED by an attempt that succeeded, never by reading a failure kindly. */
  lemma OnlySuccessDelivers(reply: Reply, number: nat, now: nat)
    ensures NextStepAfter(DispositionOf(OutcomeOf(reply)), number, now).Deliver? <==> OutcomeOf(reply).Succeeded?
  {}

  lemma RecordIsSound(h: Hub, hid: nat, reply: Reply)
    requires Sound(h)
    ensures Sound(Apply(h, Record(hid, reply)))
  {
    var g := Apply(h, Record(hid, reply));
    if g != h {
      var outcome := OutcomeOf(reply);
      var x := h.holders[hid];
      var d := h.tables.deliveries[x.event];
      assert HolderSound(h, hid) && RowSound(h.tables, x.event);
      forall e: nat ensures RowSound(g.tables, e) {
        assert RowSound(h.tables, e);
        NumbersOfAppend(h.tables.attempts, Attempt(x.event, Some(x.attemptCount + 1), h.clock, outcome), e);
        assert UpTo(d.attemptCount + 1) == UpTo(d.attemptCount) + [d.attemptCount + 1];
      }
      forall other | other in g.holders ensures HolderSound(g, other) {
        assert HolderSound(h, other);
        if Live(h, other) { assert h.holders[other].event != x.event; }
      }
    }
  }

  lemma LeaseIsSound(h: Hub, hid: nat, e: nat, worker: nat, leaseMs: nat)
    requires Sound(h)
    ensures Sound(Apply(h, Lease(hid, e, worker, leaseMs)))
    ensures Sound(Apply(h, Push(hid, e, worker, leaseMs)))
  {
    assert RowSound(h.tables, e);
    if hid !in h.holders && leaseMs > 0 {
      if Candidate(h.tables, e, h.clock) {
        TakeIsSound(h, hid, Leased(h.tables, e, worker, h.clock, leaseMs), HolderOf(h.tables, e, worker, h.clock, leaseMs));
      }
      var (after, answer) := PushStep(h.tables, e, worker, h.clock, leaseMs);
      if answer.Taken? { TakeIsSound(h, hid, after, answer.holder); }
    }
  }

  lemma RescueIsSound(h: Hub, e: nat)
    requires Sound(h)
    ensures Sound(Apply(h, Rescue(e)))
  {
    var g := Apply(h, Rescue(e));
    assert RowSound(h.tables, e);
    forall other: nat ensures RowSound(g.tables, other) { assert RowSound(h.tables, other); }
    forall hid | hid in g.holders ensures HolderSound(g, hid) { assert HolderSound(h, hid); }
    assert forall hid :: Live(g, hid) <==> Live(h, hid);
  }

  lemma StepIsSound(h: Hub, step: Step)
    requires Sound(h)
    ensures Sound(Apply(h, step))
  {
    var g := Apply(h, step);
    match step
    case Lease(hid, e, worker, leaseMs) => LeaseIsSound(h, hid, e, worker, leaseMs);
    case Push(hid, e, worker, leaseMs) => LeaseIsSound(h, hid, e, worker, leaseMs);
    case Record(hid, reply) => RecordIsSound(h, hid, reply);
    case Rescue(e) => RescueIsSound(h, e);
    case PushUntracked(pushed, reply) =>
      forall e: nat ensures RowSound(g.tables, e) {
        assert RowSound(h.tables, e);
        NumbersOfAppend(h.tables.attempts, Attempt(pushed, None, h.clock, OutcomeOf(reply)), e);
      }
      forall hid | hid in g.holders ensures HolderSound(g, hid) { assert HolderSound(h, hid); }
    case _ =>
      forall e: nat ensures RowSound(g.tables, e) { assert RowSound(h.tables, e); }
      forall hid | hid in g.holders ensures HolderSound(g, hid) { assert HolderSound(h, hid); }
      assert forall hid :: Live(g, hid) ==> Live(h, hid);
  }

  lemma {:induction false} RunIsSound(h: Hub, steps: seq<Step>)
    requires Sound(h)
    ensures Sound(Run(h, steps))
    decreases |steps|
  {
    if steps != [] {
      StepIsSound(h, steps[0]);
      RunIsSound(Apply(h, steps[0]), steps[1..]);
    }
  }

  lemma StartIsSound()
    ensures Sound(START)
  {
    forall e: nat ensures RowSound(START.tables, e) {}
  }

  // ---------------------------------------------------------------- what it comes to

  /** No handover ever has two live holders, whatever crashes. */
  lemma NoTwoLiveHolders(steps: seq<Step>, a: nat, b: nat)
    requires Live(Run(START, steps), a) && Live(Run(START, steps), b) && a != b
    ensures Run(START, steps).holders[a].event != Run(START, steps).holders[b].event
  {
    StartIsSound();
    RunIsSound(START, steps);
  }

  /** The tracked attempts of a handover are numbered 1..attemptCount, in order, none missing or twice. */
  lemma AttemptsAreNumbered(steps: seq<Step>, e: nat)
    ensures var t := Run(START, steps).tables;
            Numbers(t.attempts, e) == UpTo(if e in t.deliveries then t.deliveries[e].attemptCount else 0)
  {
    StartIsSound();
    RunIsSound(START, steps);
    assert RowSound(Run(START, steps).tables, e);
  }

  lemma RowsAreWellFormed(steps: seq<Step>, e: nat)
    requires e in Run(START, steps).tables.deliveries
    ensures var t := Run(START, steps).tables;
            WellFormed(t.deliveries[e]) && (t.deliveries[e].state.DELIVERED? ==> HandedOver(t.attempts, e))
  {
    StartIsSound();
    RunIsSound(START, steps);
    assert RowSound(Run(START, steps).tables, e);
  }

  // ---------------------------------------------------------------- nothing eligible is ever lost

  predicate Eligible(t: Tables, e: nat) {
    e in t.events && Ready(t, t.events[e].client) && t.events[e].occurredAt >= t.endpoints[t.events[e].client].deliverFrom
  }

  predicate Finished(t: Tables, e: nat) { e in t.deliveries && !t.deliveries[e].state.PENDING? }

  /** From this instant on, if nothing touches the event meanwhile, it can be picked up. */
  function PickupAt(t: Tables, e: nat, now: nat): nat {
    if e !in t.deliveries || t.deliveries[e].nextAttemptAt.None? then now
    else
      var d := t.deliveries[e];
      Max(Max(now, d.nextAttemptAt.value), if d.lease.Some? then d.lease.value.expiresAt else 0)
  }

  /**
   * After any run, crashes included, an eligible event is finished or can be picked up: at PickupAt
   * and at every later instant it is a candidate.
   */
  lemma NothingIsLost(steps: seq<Step>, e: nat, later: nat)
    requires Eligible(Run(START, steps).tables, e)
    requires PickupAt(Run(START, steps).tables, e, Run(START, steps).clock) <= later
    ensures Finished(Run(START, steps).tables, e) || Candidate(Run(START, steps).tables, e, later)
  {
    StartIsSound();
    RunIsSound(START, steps);
    assert RowSound(Run(START, steps).tables, e);
  }

  function Candidates(t: Tables, now: nat): set<nat> {
    (set e | e in t.deliveries && Candidate(t, e, now)) + (set e | e in t.events && Candidate(t, e, now))
  }

  lemma CandidatesAreAll(t: Tables, e: nat, now: nat)
    ensures e in Candidates(t, now) <==> Candidate(t, e, now)
  {}

  /** Leasing one candidate removes it, and only it, from the candidates of that instant. */
  lemma LeaseTakesOne(t: Tables, e: nat, worker: nat, now: nat, leaseMs: nat)
    requires Candidate(t, e, now) && leaseMs > 0
    ensures Candidates(Leased(t, e, worker, now, leaseMs), now) == Candidates(t, now) - {e}
  {
    var after := Leased(t, e, worker, now, leaseMs);
    forall f ensures Candidate(after, f, now) <==> Candidate(t, f, now) && f != e {}
    assert forall f :: f in Candidates(after, now) <==> f in Candidates(t, now) - {e};
  }

  /** The tables after leasing these events one after another at one instant. */
  function LeaseAll(t: Tables, picks: seq<nat>, worker: nat, now: nat, leaseMs: nat): Tables
    decreases |picks|
  {
    if picks == [] || !Candidate(t, picks[0], now) then t
    else LeaseAll(Leased(t, picks[0], worker, now, leaseMs), picks[1..], worker, now, leaseMs)
  }

  ghost predicate EachPicked(t: Tables, picks: seq<nat>, worker: nat, now: nat, leaseMs: nat)
    decreases |picks|
  {
    picks == [] ||
    (Picked(t, picks[0], now) && Candidate(t, picks[0], now) &&
     EachPicked(Leased(t, picks[0], worker, now, leaseMs), picks[1..], worker, now, leaseMs))
  }

  lemma PickExists(t: Tables, now: nat)
    requires Candidates(t, now) != {}
    ensures exists e :: Candidate(t, e, now) && Picked(t, e, now)
  {
    var dues := set e | e in t.deliveries && Due(t, e, now);
    if dues != {} {
      var e := LeastDue(t, dues, now);
      assert forall d :: Due(t, d, now) ==> d in dues;
      assert Picked(t, e, now);
    } else {
      forall d ensures !Due(t, d, now) { assert d !in dues; }
      var untracked := set e | e in t.events && Fresh(t, e);
      var c :| c in Candidates(t, now);
      assert c in untracked;
      var e := OldestFresh(t, untracked);
      assert Picked(t, e, now);
    }
  }

  lemma LeastDue(t: Tables, dues: set<nat>, now: nat) returns (e: nat)
    requires dues != {} && forall d :: d in dues ==> Due(t, d, now)
    ensures e in dues && Due(t, e, now)
    ensures forall d :: d in dues && Due(t, d, now) ==>
              t.deliveries[e].nextAttemptAt.value <= t.deliveries[d].nextAttemptAt.value
  {
    e :| e in dues;
    if dues != {e} {
      var rest := LeastDue(t, dues - {e}, now);
      if t.deliveries[rest].nextAttemptAt.value < t.deliveries[e].nextAttemptAt.value { e := rest; }
    }
  }

  lemma OldestFresh(t: Tables, untracked: set<nat>) returns (e: nat)
    requires untracked != {} && forall f :: f in untracked ==> Fresh(t, f)
    ensures e in untracked && Fresh(t, e)
    ensures forall f :: f in untracked && Fresh(t, f) ==> t.events[e].occurredAt <= t.events[f].occurredAt
  {
    e :| e in untracked;
    if untracked != {e} {
      var rest := OldestFresh(t, untracked - {e});
      if t.events[rest].occurredAt < t.events[e].occurredAt { e := rest; }
    }
  }

  function SetOf(picks: seq<nat>): set<nat> { set e | e in picks }

  /** These pickups are each the worker's choice, take every candidate exactly once, and leave none. */
  ghost predicate Drains(t: Tables, picks: seq<nat>, worker: nat, now: nat, leaseMs: nat) {
    && |picks| == |Candidates(t, now)| && SetOf(picks) == Candidates(t, now)
    && EachPicked(t, picks, worker, now, leaseMs)
    && Candidates(LeaseAll(t, picks, worker, now, leaseMs), now) == {}
  }

  lemma DrainsAfterOne(t: Tables, e: nat, rest: seq<nat>, worker: nat, now: nat, leaseMs: nat)
    requires Candidate(t, e, now) && Picked(t, e, now)
    requires Candidates(Leased(t, e, worker, now, leaseMs), now) == Candidates(t, now) - {e} && e in Candidates(t, now)
    requires Drains(Leased(t, e, worker, now, leaseMs), rest, worker, now, leaseMs)
    ensures Drains(t, [e] + rest, worker, now, leaseMs)
  {
    var picks := [e] + rest;
    assert picks[1..] == rest;
    assert SetOf(picks) == {e} + SetOf(rest);
  }

  /**
   * A worker that keeps picking up at one instant gets through everything there is: some sequence of
   * pickups, one per candidate, leases each candidate exactly once and leaves none.
   */
  lemma {:induction false} DrainReachesEverything(t: Tables, worker: nat, now: nat, leaseMs: nat) returns (picks: seq<nat>)
    requires leaseMs > 0
    ensures Drains(t, picks, worker, now, leaseMs)
    decreases |Candidates(t, now)|
  {
    if Candidates(t, now) == {} {
      picks := [];
    } else {
      PickExists(t, now);
      var e :| Candidate(t, e, now) && Picked(t, e, now);
      LeaseTakesOne(t, e, worker, now, leaseMs);
      CandidatesAreAll(t, e, now);
      var rest := DrainReachesEverything(Leased(t, e, worker, now, leaseMs), worker, now, leaseMs);
      DrainsAfterOne(t, e, rest, worker, now, leaseMs);
      picks := [e] + rest;
    }
  }

  // ---------------------------------------------------------------- how many attempts

  /** At most `cap` attempts, and none owed once they are all made. */
  predicate Capped(t: Tables, e: nat, cap: nat) {
    e in t.deliveries ==>
      t.deliveries[e].attemptCount <= cap && (t.deliveries[e].state.PENDING? ==> t.deliveries[e].attemptCount < cap)
  }

  predicate NoRescueOf(steps: seq<Step>, e: nat) {
    forall i :: 0 <= i < |steps| ==> steps[i] != Rescue(e)
  }

  lemma {:induction false} CapIsKept(h: Hub, steps: seq<Step>, e: nat, cap: nat)
    requires Sound(h) && cap >= MAX_ATTEMPTS && Capped(h.tables, e, cap) && NoRescueOf(steps, e)
    ensures Capped(Run(h, steps).tables, e, cap)
    decreases |steps|
  {
    if steps != [] {
      var step := steps[0];
      if step.Record? && step.hid in h.holders { assert HolderSound(h, step.hid); }
      StepIsSound(h, step);
      CapIsKept(Apply(h, step), steps[1..], e, cap);
    }
  }

  /** Without a rescue a handover makes at most five attempts, and after the fifth it is finished. */
  lemma FiveAttemptsAtMost(steps: seq<Step>, e: nat)
    requires NoRescueOf(steps, e) && e in Run(START, steps).tables.deliveries
    ensures var d := Run(START, steps).tables.deliveries[e];
            d.attemptCount <= 5 && (d.attemptCount == 5 ==> !d.state.PENDING?)
  {
    StartIsSound();
    CapIsKept(START, steps, e, 5);
  }

  /** What a rescue at attemptCount n buys. */
  function RescueCap(n: nat): nat { n + Max(1, if n < 5 then 5 - n else 0) }

  /**
   * A rescue at attemptCount n buys at most max(1, 5 - n) more attempts until the next one; when the
   * retries had run out (n >= 4) the very next attempt finishes the handover, whatever it gets.
   */
  lemma RescueBuysFew(before: seq<Step>, e: nat, after: seq<Step>)
    requires RescueStep(Run(START, before).tables, e, Run(START, before).clock).1.RESCHEDULED? && NoRescueOf(after, e)
    ensures var n := Run(START, before).tables.deliveries[e].attemptCount;
            var later := Run(Apply(Run(START, before), Rescue(e)), after).tables;
            && Capped(later, e, RescueCap(n))
            && (n >= 4 ==> RescueCap(n) == n + 1)
            && e in later.deliveries && later.deliveries[e].attemptCount >= n
            && (n >= 4 && later.deliveries[e].attemptCount > n ==>
                  later.deliveries[e].attemptCount == n + 1 && !later.deliveries[e].state.PENDING?)
  {
    StartIsSound();
    RunIsSound(START, before);
    var h := Run(START, before);
    StepIsSound(h, Rescue(e));
    CapIsKept(Apply(h, Rescue(e)), after, e, RescueCap(h.tables.deliveries[e].attemptCount));
    CountsGrow(Apply(h, Rescue(e)), after, e);
  }

  /** A handover a receiver refused outright on its first attempt: exhausted with four retries unused. */
  const REFUSED_AT_ONCE: seq<Step> := [
    Configure(1, Endpoint(true, true, 0)), Happen(1, 1), Lease(1, 1, 1, 1000), Record(1, Status(404))]

  /**
   * "A rescue buys one more attempt" is what the code does exactly when at least four attempts were
   * made: with fewer, a retryable failure after the rescue leaves the handover PENDING again.
   */
  lemma RescueBuysOneIff(t: Tables, e: nat, worker: nat, now: nat, leaseMs: nat, reply: Reply, at: nat)
    requires e in t.deliveries && t.deliveries[e].state.EXHAUSTED? && Ready(t, t.deliveries[e].client)
    requires DispositionOf(OutcomeOf(reply)).RETRYABLE?
    ensures var rescued := RescueStep(t, e, now).0;
            && Candidate(rescued, e, now)
            && var after := Recorded(Leased(rescued, e, worker, now, leaseMs), HolderOf(rescued, e, worker, now, leaseMs),
                                     OutcomeOf(reply), at);
               after.deliveries[e].state.EXHAUSTED? <==> t.deliveries[e].attemptCount >= 4
  {}

  lemma RescueMayBuyMore()
    ensures var t := Run(START, REFUSED_AT_ONCE).tables;
            1 in t.deliveries && t.deliveries[1].state.EXHAUSTED? && t.deliveries[1].attemptCount == 1
  {
    var a := Apply(Apply(START, REFUSED_AT_ONCE[0]), REFUSED_AT_ONCE[1]);
    assert Run(START, REFUSED_AT_ONCE) == Run(a, REFUSED_AT_ONCE[2..]);
    var b := Apply(a, REFUSED_AT_ONCE[2]);
    assert Run(a, REFUSED_AT_ONCE[2..]) == Run(b, REFUSED_AT_ONCE[3..]);
    assert b.holders[1] == Holder(1, 1, 0, None, None, 1000);
    assert Run(b, REFUSED_AT_ONCE[3..]) == Run(Apply(b, REFUSED_AT_ONCE[3]), REFUSED_AT_ONCE[4..]);
  }

  lemma {:induction false} CountsGrow(h: Hub, steps: seq<Step>, e: nat)
    requires Sound(h) && e in h.tables.deliveries
    ensures e in Run(h, steps).tables.deliveries
    ensures h.tables.deliveries[e].attemptCount <= Run(h, steps).tables.deliveries[e].attemptCount
    decreases |steps|
  {
    if steps != [] {
      var step := steps[0];
      if step.Record? && step.hid in h.holders { assert HolderSound(h, step.hid); }
      StepIsSound(h, step);
      CountsGrow(Apply(h, step), steps[1..], e);
    }
  }

  // ---------------------------------------------------------------- the service

  /** One turn of a pass: when the lease is taken, what the send gets, when it is recorded. */
  datatype Turn = Turn(leaseAt: nat, reply: Reply, recordedAt: nat)

  /** The tables after handing over these events one after another, each leased, sent and recorded. */
  function Handed(t: Tables, picks: seq<nat>, turns: seq<Turn>, worker: nat, leaseMs: nat): Tables
    requires |picks| <= |turns|
  {
    if picks == [] then t
    else
      var k := |picks| - 1;
      var before := Handed(t, picks[..k], turns, worker, leaseMs);
      if !Candidate(before, picks[k], turns[k].leaseAt) then before
      else Recorded(Leased(before, picks[k], worker, turns[k].leaseAt, leaseMs),
                    HolderOf(before, picks[k], worker, turns[k].leaseAt, leaseMs),
                    OutcomeOf(turns[k].reply), turns[k].recordedAt)
  }

  lemma HandedOneMore(t: Tables, picks: seq<nat>, e: nat, turns: seq<Turn>, worker: nat, leaseMs: nat)
    requires |picks| < |turns|
    ensures var before, turn := Handed(t, picks, turns, worker, leaseMs), turns[|picks|];
            Handed(t, picks + [e], turns, worker, leaseMs) ==
              if !Candidate(before, e, turn.leaseAt) then before
              else Recorded(Leased(before, e, worker, turn.leaseAt, leaseMs),
                            HolderOf(before, e, worker, turn.leaseAt, leaseMs), OutcomeOf(turn.reply), turn.recordedAt)
  {
    assert (picks + [e])[..|picks|] == picks;
  }

  class B2bWebhooksService {
    const worker: nat
    const leaseMs: nat
    var stopped: bool
    var lastPoll: Option<nat>
    var events: map<nat, Event>
    var endpoints: map<nat, Endpoint>
    var deliveries: map<nat, Delivery>
    var attempts: seq<Attempt>

    function View(): Tables reads this { Tables(events, endpoints, deliveries, attempts) }

    constructor (worker: nat, leaseMs: nat)
      ensures View() == START.tables && !stopped && lastPoll.None?
      ensures this.worker == worker && this.leaseMs == leaseMs
    {
      this.worker, this.leaseMs, stopped, lastPoll := worker, leaseMs, false, None;
      events, endpoints, deliveries, attempts := map[], map[], map[], [];
    }

    /** The longest-due tracked row nobody holds. */
    method FindDue(now: nat) returns (best: Option<nat>)
      ensures best.None? ==> forall e :: !Due(View(), e, now)
      ensures best.Some? ==> Due(View(), best.value, now) && Picked(View(), best.value, now)
    {
      best := None;
      var left := deliveries.Keys;
      while left != {}
        invariant left <= deliveries.Keys
        invariant best.None? ==> forall e :: e in deliveries && e !in left ==> !Due(View(), e, now)
        invariant best.Some? ==>
                    && Due(View(), best.value, now)
                    && forall e :: e !in left && Due(View(), e, now) ==>
                         deliveries[best.value].nextAttemptAt.value <= deliveries[e].nextAttemptAt.value
        decreases left
      {
        var e :| e in left;
        left := left - {e};
        if Due(View(), e, now) && (best.None?
            || deliveries[e].nextAttemptAt.value < deliveries[best.value].nextAttemptAt.value) {
          best := Some(e);
        }
      }
    }

    /** The oldest eligible event with no transport state. */
    method FindFresh() returns (best: Option<nat>)
      ensures best.None? ==> forall e :: !Fresh(View(), e)
      ensures best.Some? ==>
                && Fresh(View(), best.value)
                && forall e :: Fresh(View(), e) ==> events[best.value].occurredAt <= events[e].occurredAt
    {
      best := None;
      var left := events.Keys;
      while left != {}
        invariant left <= events.Keys
        invariant best.None? ==> forall e :: e in events && e !in left ==> !Fresh(View(), e)
        invariant best.Some? ==>
                    && Fresh(View(), best.value)
                    && forall e :: e !in left && Fresh(View(), e) ==> events[best.value].occurredAt <= events[e].occurredAt
        decreases left
      {
        var e :| e in left;
        left := left - {e};
        if Fresh(View(), e) && (best.None? || events[e].occurredAt < events[best.value].occurredAt) { best := Some(e); }
      }
    }

    /** Takes one unit of work: tracked and due first, else a newly discovered event. */
    method Lease(now: nat) returns (r: Option<Holder>)
      modifies this`deliveries
      ensures r.None? ==> View() == old(View()) && forall e :: !Candidate(View(), e, now)
      ensures r.Some? ==>
                var e := r.value.event;
                && Candidate(old(View()), e, now) && Picked(old(View()), e, now)
                && r.value == HolderOf(old(View()), e, worker, now, leaseMs)
                && View() == Leased(old(View()), e, worker, now, leaseMs)
    {
      var mark := Some(LeaseMark(worker, now + leaseMs));
      var due := FindDue(now);
      if due.Some? {
        var e := due.value;
        r := Some(Holder(e, worker, deliveries[e].attemptCount, None, None, now + leaseMs));
        deliveries := deliveries[e := deliveries[e].(lease := mark)];
        return;
      }
      var untracked := FindFresh();
      if untracked.None? { return None; }
      var e := untracked.value;
      deliveries := deliveries[e := Delivery(events[e].client, PENDING, 0, Some(now), mark, None, None, None)];
      return Some(Holder(e, worker, 0, None, None, now + leaseMs));
    }

    /** Writes the attempt and moves the transport state, together. */
    method Record(h: Holder, outcome: Outcome, now: nat)
      requires h.event in deliveries
      modifies this`deliveries, this`attempts
      ensures View() == Recorded(old(View()), h, outcome, now)
    {
      var number := h.attemptCount + 1;
      var step := NextStepAfter(DispositionOf(outcome), number, now);
      attempts := attempts + [Attempt(h.event, Some(number), now, outcome)];
      var d := deliveries[h.event];
      d := d.(attemptCount := number, lastAttemptAt := Some(now), lease := None, nextAttemptAt := None);
      match step {
        case Deliver =>
          d := d.(state := DELIVERED, exhaustedAt := None);
          if h.deliveredAt.None? { d := d.(deliveredAt := Some(now)); }
        case Retry(at) =>
          d := d.(state := PENDING, nextAttemptAt := Some(at));
        case Stop =>
          d := d.(state := EXHAUSTED);
          if h.exhaustedAt.None? { d := d.(exhaustedAt := Some(now)); }
      }
      deliveries := deliveries[h.event := d];
    }

    /** A manual push up to its send. */
    method Push(e: nat, now: nat) returns (r: PushAnswer)
      modifies this`deliveries
      ensures (View(), r) == PushStep(old(View()), e, worker, now, leaseMs)
    {
      if e !in events { return NotFound; }
      if !Ready(View(), events[e].client) { return Skipped; }
      if e !in deliveries { return Untracked; }
      var d := deliveries[e];
      if d.lease.Some? && d.lease.value.expiresAt > now { return Busy; }
      if !d.state.PENDING? { return OutOfScope; }
      deliveries := deliveries[e := d.(lease := Some(LeaseMark(worker, now + leaseMs)))];
      return Taken(Holder(e, worker, d.attemptCount, d.deliveredAt, d.exhaustedAt, now + leaseMs));
    }

    method Rescue(e: nat, now: nat) returns (r: RescueAnswer)
      modifies this`deliveries
      ensures (View(), r) == RescueStep(old(View()), e, now)
    {
      if e !in deliveries { return NO_DELIVERY; }
      var d := deliveries[e];
      if d.state.DELIVERED? { return ALREADY_DELIVERED; }
      if d.state.PENDING? { return ALREADY_PENDING; }
      deliveries := deliveries[e := d.(state := PENDING, nextAttemptAt := Some(now), exhaustedAt := None, lease := None)];
      return RESCHEDULED(d.attemptCount);
    }

    method OnApplicationShutdown()
      modifies this`stopped
      ensures stopped
    {
      stopped := true;
    }

    /**
     * One pass: lease, send, record, until the limit, the shutdown or the lack of work. `picks` are
     * the events handed over, in order. A pass that stops short of its limit left no work behind.
     */
    method Drain(limit: nat, turns: seq<Turn>) returns (results: seq<Outcome>, ghost picks: seq<nat>)
      requires limit < |turns|
      modifies this`deliveries, this`attempts
      ensures |results| == |picks| <= limit
      ensures View() == Handed(old(View()), picks, turns, worker, leaseMs)
      ensures forall k :: 0 <= k < |results| ==> results[k] == OutcomeOf(turns[k].reply)
      ensures stopped ==> picks == []
      ensures !stopped && |picks| < limit ==> forall e :: !Candidate(View(), e, turns[|picks|].leaseAt)
    {
      results, picks := [], [];
      for i := 0 to limit
        invariant |results| == |picks| == i
        invariant View() == Handed(old(View()), picks, turns, worker, leaseMs)
        invariant forall k :: 0 <= k < i ==> results[k] == OutcomeOf(turns[k].reply)
        invariant stopped ==> i == 0
      {
        if stopped { return; }
        var leased := Lease(turns[i].leaseAt);
        if leased.None? { return; }
        var outcome := OutcomeOf(turns[i].reply);
        Record(leased.value, outcome, turns[i].recordedAt);
        HandedOneMore(old(View()), picks, leased.value.event, turns, worker, leaseMs);
        picks := picks + [leased.value.event];
        results := results + [outcome];
      }
    }

    method Tick(limit: nat, turns: seq<Turn>, now: nat) returns (results: seq<Outcome>, ghost picks: seq<nat>)
      requires limit < |turns|
      modifies this`deliveries, this`attempts, this`lastPoll
      ensures |picks| <= limit && View() == Handed(old(View()), picks, turns, worker, leaseMs)
      ensures stopped ==> View() == old(View()) && lastPoll == old(lastPoll) && results == []
      ensures !stopped ==> lastPoll == Some(now)
    {
      if stopped { return [], []; }
      lastPoll := Some(now);
      results, picks := Drain(limit, turns);
    }
  }
}
