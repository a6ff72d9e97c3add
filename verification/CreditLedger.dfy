/**
 * The credit ledger: accounts with a materialised balance and an append-only list of entries. A human
 * movement is idempotent per (account, key) and checks its key twice, once before any lock and once
 * under the account's row lock; an award debits a frozen cost; a refund is the exact opposite entry of
 * one award and points at it.
 *
 * A transaction holding an account's row lock is one atomic step, and inserting an entry is what moves
 * the balance. Fingerprints are injective, so a movement stands for its request hash. An entry's
 * identifier is its sequence number.
 */
module CreditLedger {
  import opened Common

  const MAX_CREDIT_MOVEMENT := 1_000_000
  const MAX_CREDIT_BALANCE := 1_000_000_000
  const MAX_INT32 := 0x7fff_ffff

  /** A whole number of credits that one movement may carry, as every frozen cost is. */
  type Credits = c: int | 1 <= c <= MAX_CREDIT_MOVEMENT witness 1

  datatype ActorType = PROVIDER | INDEPENDENT_DRIVER
  datatype Owner = Owner(actorType: ActorType, id: nat)
  datatype Account = Account(owner: Owner, balance: int)

  datatype Method = TRANSFER | CASH | OTHER
  datatype Movement =
    | Recharge(amount: int, rechargeMethod: Method, externalReference: Option<string>, reason: Option<string>)
    | AdminAdjustment(amount: int, reason: Option<string>)

  datatype EntryType = RECHARGE | ADMIN_ADJUSTMENT | SERVICE_AWARD | SERVICE_REFUND
  datatype Origin =
    | Human(key: string, request: Movement)
    | Award(dispatch: nat)
    | Refund(dispatch: nat, reverses: nat)
  datatype Entry = Entry(id: nat, account: nat, kind: EntryType, amount: int, before: int, after: int, origin: Origin)

  datatype Ledger = Ledger(accounts: seq<Account>, entries: seq<Entry>)

  const EMPTY := Ledger([], [])

  datatype CreditError =
    | INSUFFICIENT_CREDITS | CREDIT_BALANCE_LIMIT | CREDIT_IDEMPOTENCY_CONFLICT | CREDIT_MOVEMENT_CONFLICT
    | CREDIT_ACCOUNT_NOT_FOUND | CREDIT_ACCOUNT_UNAVAILABLE | CREDIT_SNAPSHOT_UNAVAILABLE
    | CREDIT_REFUND_INTEGRITY_ERROR | BAD_REQUEST

  function KindOf(m: Movement): EntryType { if m.Recharge? then RECHARGE else ADMIN_ADJUSTMENT }

  predicate SignAllowed(kind: EntryType, amount: int) {
    match kind
    case RECHARGE => amount > 0
    case SERVICE_REFUND => amount > 0
    case SERVICE_AWARD => amount < 0
    case ADMIN_ADJUSTMENT => amount != 0
  }

  /** What the request body of a human movement must satisfy before anything is read. */
  predicate Valid(m: Movement) {
    match m
    case Recharge(amount, _, _, _) => 1 <= amount <= MAX_CREDIT_MOVEMENT
    case AdminAdjustment(amount, _) => amount != 0 && -MAX_CREDIT_MOVEMENT <= amount <= MAX_CREDIT_MOVEMENT
  }

  function NextBalance(before: int, amount: int): Result<int, CreditError> {
    if before + amount < 0 then Err(INSUFFICIENT_CREDITS)
    else if before + amount > MAX_CREDIT_BALANCE then Err(CREDIT_BALANCE_LIMIT)
    else Ok(before + amount)
  }

  // ---------------------------------------------------------------- lookups over the entries

  function ByKey(es: seq<Entry>, account: nat, key: string): Option<Entry> {
    if es == [] then None
    else
      var earlier := ByKey(es[..|es| - 1], account, key);
      var last := es[|es| - 1];
      if earlier.Some? then earlier
      else if last.account == account && last.origin.Human? && last.origin.key == key then Some(last) else None
  }

  function FindAward(es: seq<Entry>, account: nat, dispatch: nat): Option<Entry> {
    if es == [] then None
    else
      var earlier := FindAward(es[..|es| - 1], account, dispatch);
      var last := es[|es| - 1];
      if earlier.Some? then earlier
      else if last.account == account && last.origin == Award(dispatch) then Some(last) else None
  }

  function FindRefund(es: seq<Entry>, award: nat): Option<Entry> {
    if es == [] then None
    else
      var earlier := FindRefund(es[..|es| - 1], award);
      var last := es[|es| - 1];
      if earlier.Some? then earlier
      else if last.origin.Refund? && last.origin.reverses == award then Some(last) else None
  }

  function AccountOf(accounts: seq<Account>, owner: Owner): (r: Option<nat>)
    ensures r.Some? ==> r.value < |accounts| && accounts[r.value].owner == owner
    ensures r.None? ==> forall a :: 0 <= a < |accounts| ==> accounts[a].owner != owner
  {
    if accounts == [] then None
    else
      var n := |accounts| - 1;
      if accounts[n].owner == owner then Some(n) else AccountOf(accounts[..n], owner)
  }

  // ---------------------------------------------------------------- the operations as steps

  /** Inserting an entry is the movement: the balance becomes the entry's `after`. */
  function Append(l: Ledger, account: nat, kind: EntryType, amount: int, origin: Origin): Ledger
    requires account < |l.accounts|
  {
    var before := l.accounts[account].balance;
    Ledger(l.accounts[account := l.accounts[account].(balance := before + amount)],
           l.entries + [Entry(|l.entries|, account, kind, amount, before, before + amount, origin)])
  }

  function OpenAccountStep(l: Ledger, owner: Owner): Ledger {
    if AccountOf(l.accounts, owner).Some? then l else l.(accounts := l.accounts + [Account(owner, 0)])
  }

  datatype Receipt = Receipt(entry: Entry, replayed: bool)
  type MoveAnswer = Result<Receipt, CreditError>

  function Replay(entry: Entry, m: Movement): MoveAnswer {
    if entry.origin.Human? && entry.origin.request == m then Ok(Receipt(entry, true)) else Err(CREDIT_IDEMPOTENCY_CONFLICT)
  }

  /** The look before any lock: None means the movement goes on to its transaction. */
  function PreCheck(l: Ledger, account: nat, key: string, m: Movement): Option<MoveAnswer> {
    var prior := ByKey(l.entries, account, key);
    if prior.Some? then Some(Replay(prior.value, m)) else None
  }

  /** The transaction: lock the account, look again, compute, insert. */
  function LockedStep(l: Ledger, account: nat, key: string, m: Movement): (Ledger, MoveAnswer) {
    if account >= |l.accounts| then (l, Err(CREDIT_ACCOUNT_NOT_FOUND))
    else
      var raced := ByKey(l.entries, account, key);
      if raced.Some? then (l, Replay(raced.value, m))
      else
        var next := NextBalance(l.accounts[account].balance, m.amount);
        if next.Err? then (l, Err(next.error))
        else
          var after := Append(l, account, KindOf(m), m.amount, Human(key, m));
          (after, Ok(Receipt(after.entries[|l.entries|], false)))
  }

  datatype AwardOutcome = LegacyAward | Charged(entry: Entry)

  function ChargeStep(l: Ledger, monetized: bool, snapshot: Option<Credits>, owner: Owner, dispatch: nat)
    : (Ledger, Result<AwardOutcome, CreditError>)
  {
    if !monetized then (l, Ok(LegacyAward))
    else if snapshot.None? then (l, Err(CREDIT_SNAPSHOT_UNAVAILABLE))
    else
      var account := AccountOf(l.accounts, owner);
      var cost: int := snapshot.value;
      if account.None? then (l, Err(CREDIT_ACCOUNT_UNAVAILABLE))
      else
        var next := NextBalance(l.accounts[account.value].balance, -cost);
        if next.Err? then (l, Err(next.error))
        // One award per account and dispatch: the partial unique index.
        else if FindAward(l.entries, account.value, dispatch).Some? then (l, Err(CREDIT_MOVEMENT_CONFLICT))
        else
          var after := Append(l, account.value, SERVICE_AWARD, -cost, Award(dispatch));
          (after, Ok(Charged(after.entries[|l.entries|])))
  }

  datatype Boundary = LEGACY | PRE_ENFORCEMENT_AWARD | ENFORCED
  datatype RefundOutcome = NothingOwed(boundary: Boundary) | Already(entry: Entry) | Refunded(entry: Entry)

  function RefundStep(l: Ledger, boundary: Boundary, owner: Owner, dispatch: nat)
    : (Ledger, Result<RefundOutcome, CreditError>)
  {
    var account := AccountOf(l.accounts, owner);
    var award := if account.Some? then FindAward(l.entries, account.value, dispatch) else None;
    if award.None? then (l, if !boundary.ENFORCED? then Ok(NothingOwed(boundary)) else Err(CREDIT_REFUND_INTEGRITY_ERROR))
    else
      var existing := FindRefund(l.entries, award.value.id);
      if existing.Some? then (l, Ok(Already(existing.value)))
      else if award.value.account >= |l.accounts| then (l, Err(CREDIT_REFUND_INTEGRITY_ERROR))
      else
        var credits := -award.value.amount;
        var next := NextBalance(l.accounts[award.value.account].balance, credits);
        if next.Err? then (l, Err(next.error))
        else
          var after := Append(l, award.value.account, SERVICE_REFUND, credits, Refund(dispatch, award.value.id));
          (after, Ok(Refunded(after.entries[|l.entries|])))
  }

  // ---------------------------------------------------------------- what a sound ledger is

  function BalanceAfter(es: seq<Entry>, account: nat): int {
    if es == [] then 0
    else if es[|es| - 1].account == account then es[|es| - 1].after
    else BalanceAfter(es[..|es| - 1], account)
  }

  ghost predicate OriginFits(prior: seq<Entry>, e: Entry) {
    match e.origin
    case Human(key, m) => e.kind == KindOf(m) && e.amount == m.amount && ByKey(prior, e.account, key).None?
    case Award(d) => e.kind.SERVICE_AWARD? && FindAward(prior, e.account, d).None?
    case Refund(d, r) =>
      && e.kind.SERVICE_REFUND? && r < |prior| && prior[r].origin == Award(d)
      && prior[r].account == e.account && e.amount == -prior[r].amount && FindRefund(prior, r).None?
  }

  /** What one entry owes to the entries before it. */
  ghost predicate Fits(prior: seq<Entry>, e: Entry) {
    && e.id == |prior|
    && SignAllowed(e.kind, e.amount) && -MAX_CREDIT_MOVEMENT <= e.amount <= MAX_CREDIT_MOVEMENT
    && e.before == BalanceAfter(prior, e.account) && e.after == e.before + e.amount
    && 0 <= e.after <= MAX_CREDIT_BALANCE
    && OriginFits(prior, e)
  }

  ghost predicate EntriesSound(es: seq<Entry>) {
    es != [] ==> EntriesSound(es[..|es| - 1]) && Fits(es[..|es| - 1], es[|es| - 1])
  }

  function SumOfBalances(accounts: seq<Account>): int {
    if accounts == [] then 0 else SumOfBalances(accounts[..|accounts| - 1]) + accounts[|accounts| - 1].balance
  }

  function SumOfAmounts(es: seq<Entry>): int {
    if es == [] then 0 else SumOfAmounts(es[..|es| - 1]) + es[|es| - 1].amount
  }

  ghost predicate Sound(l: Ledger) {
    && EntriesSound(l.entries)
    && (forall i :: 0 <= i < |l.entries| ==> l.entries[i].account < |l.accounts|)
    && (forall a :: 0 <= a < |l.accounts| ==>
          l.accounts[a].balance == BalanceAfter(l.entries, a) && 0 <= l.accounts[a].balance <= MAX_CREDIT_BALANCE)
    && (forall a, b :: 0 <= a < b < |l.accounts| ==> l.accounts[a].owner != l.accounts[b].owner)
    && SumOfBalances(l.accounts) == SumOfAmounts(l.entries)
  }

  lemma {:induction false} SumMoves(accounts: seq<Account>, a: nat, balance: int)
    requires a < |accounts|
    ensures SumOfBalances(accounts[a := accounts[a].(balance := balance)])
         == SumOfBalances(accounts) - accounts[a].balance + balance
  {
    var n := |accounts| - 1;
    var after := accounts[a := accounts[a].(balance := balance)];
    if a == n {
      assert after[..n] == accounts[..n];
    } else {
      assert after[..n] == accounts[..n][a := accounts[a].(balance := balance)];
      SumMoves(accounts[..n], a, balance);
    }
  }

  lemma AppendedFits(l: Ledger, account: nat, kind: EntryType, amount: int, origin: Origin)
    requires Sound(l) && account < |l.accounts|
    requires NextBalance(l.accounts[account].balance, amount).Ok?
    requires SignAllowed(kind, amount) && -MAX_CREDIT_MOVEMENT <= amount <= MAX_CREDIT_MOVEMENT
    requires OriginFits(l.entries, Append(l, account, kind, amount, origin).entries[|l.entries|])
    ensures EntriesSound(Append(l, account, kind, amount, origin).entries)
  {
    var after := Append(l, account, kind, amount, origin);
    assert after.entries[..|l.entries|] == l.entries;
    assert Fits(l.entries, after.entries[|l.entries|]);
  }

  /** Every insert of an entry that fits keeps the ledger sound. */
  lemma AppendIsSound(l: Ledger, account: nat, kind: EntryType, amount: int, origin: Origin)
    requires Sound(l) && account < |l.accounts|
    requires NextBalance(l.accounts[account].balance, amount).Ok?
    requires SignAllowed(kind, amount) && -MAX_CREDIT_MOVEMENT <= amount <= MAX_CREDIT_MOVEMENT
    requires OriginFits(l.entries, Append(l, account, kind, amount, origin).entries[|l.entries|])
    ensures Sound(Append(l, account, kind, amount, origin))
  {
    var after := Append(l, account, kind, amount, origin);
    AppendedFits(l, account, kind, amount, origin);
    SumMoves(l.accounts, account, l.accounts[account].balance + amount);
    assert after.entries[..|l.entries|] == l.entries;
    forall a | 0 <= a < |after.accounts| ensures after.accounts[a].balance == BalanceAfter(after.entries, a) {
      assert l.accounts[a].balance == BalanceAfter(l.entries, a);
    }
  }

  lemma {:induction false} NoEntriesNoBalance(es: seq<Entry>, a: nat)
    requires forall i :: 0 <= i < |es| ==> es[i].account < a
    ensures BalanceAfter(es, a) == 0
  {
    if es != [] { NoEntriesNoBalance(es[..|es| - 1], a); }
  }

  lemma OpenAccountIsSound(l: Ledger, owner: Owner)
    requires Sound(l)
    ensures Sound(OpenAccountStep(l, owner))
  {
    var after := OpenAccountStep(l, owner);
    if after != l {
      var n := |l.accounts|;
      assert after.accounts[..n] == l.accounts;
      forall a | 0 <= a <= n ensures after.accounts[a].balance == BalanceAfter(l.entries, a) {
        if a == n { NoEntriesNoBalance(l.entries, n); } else { assert after.accounts[a] == l.accounts[a]; }
      }
      forall a, b | 0 <= a < b <= n ensures after.accounts[a].owner != after.accounts[b].owner {
        assert after.accounts[a] == l.accounts[a];
      }
    }
  }

  lemma {:induction false} FoundByKey(es: seq<Entry>, account: nat, key: string)
    requires EntriesSound(es)
    ensures var found := ByKey(es, account, key);
            && (found.Some? ==>
                  && found.value.id < |es| && es[found.value.id] == found.value
                  && found.value.account == account && found.value.origin.Human? && found.value.origin.key == key)
            && (forall i :: 0 <= i < |es| && es[i].account == account && es[i].origin.Human? && es[i].origin.key == key ==>
                  found == Some(es[i]))
  {
    if es != [] { FoundByKey(es[..|es| - 1], account, key); }
  }

  lemma {:induction false} FoundAward(es: seq<Entry>, account: nat, dispatch: nat)
    requires EntriesSound(es)
    ensures var found := FindAward(es, account, dispatch);
            && (found.Some? ==>
                  && found.value.id < |es| && es[found.value.id] == found.value
                  && found.value.account == account && found.value.origin == Award(dispatch)
                  && -MAX_CREDIT_MOVEMENT <= found.value.amount < 0)
            && (forall i :: 0 <= i < |es| && es[i].account == account && es[i].origin == Award(dispatch) ==>
                  found == Some(es[i]))
  {
    if es != [] { FoundAward(es[..|es| - 1], account, dispatch); }
  }

  lemma LockedIsSound(l: Ledger, account: nat, key: string, m: Movement)
    requires Sound(l) && Valid(m)
    ensures Sound(LockedStep(l, account, key, m).0)
  {
    if LockedStep(l, account, key, m).0 != l { AppendIsSound(l, account, KindOf(m), m.amount, Human(key, m)); }
  }

  lemma ChargeIsSound(l: Ledger, monetized: bool, snapshot: Option<Credits>, owner: Owner, dispatch: nat)
    requires Sound(l)
    ensures Sound(ChargeStep(l, monetized, snapshot, owner, dispatch).0)
  {
    if ChargeStep(l, monetized, snapshot, owner, dispatch).0 != l {
      var cost: int := snapshot.value;
      AppendIsSound(l, AccountOf(l.accounts, owner).value, SERVICE_AWARD, -cost, Award(dispatch));
    }
  }

  lemma RefundIsSound(l: Ledger, boundary: Boundary, owner: Owner, dispatch: nat)
    requires Sound(l)
    ensures Sound(RefundStep(l, boundary, owner, dispatch).0)
  {
    if RefundStep(l, boundary, owner, dispatch).0 != l {
      var account := AccountOf(l.accounts, owner).value;
      FoundAward(l.entries, account, dispatch);
      var award := FindAward(l.entries, account, dispatch).value;
      AppendIsSound(l, account, SERVICE_REFUND, -award.amount, Refund(dispatch, award.id));
    }
  }

  // ---------------------------------------------------------------- runs with any number of movers

  datatype Call = Call(account: nat, key: string, movement: Movement)

  /** Calls between their unlocked look and their transaction, and the answers already given. */
  datatype World = World(ledger: Ledger, pending: map<nat, Call>, calls: map<nat, Call>, answers: map<nat, MoveAnswer>)

  const START := World(EMPTY, map[], map[], map[])

  datatype Op =
    | OpenAccount(owner: Owner)
    | Begin(pid: nat, call: Call)
    | Commit(pid: nat)
    | Crash(pid: nat)
    | Charge(monetized: bool, snapshot: Option<Credits>, owner: Owner, dispatch: nat)
    | Return(boundary: Boundary, owner: Owner, dispatch: nat)

  function Answered(w: World, ledger: Ledger, pid: nat, call: Call, answer: MoveAnswer): World {
    World(ledger, w.pending - {pid}, w.calls[pid := call], w.answers[pid := answer])
  }

  function Apply(w: World, op: Op): World {
    match op
    case OpenAccount(owner) => w.(ledger := OpenAccountStep(w.ledger, owner))
    case Begin(pid, call) =>
      if pid in w.pending || pid in w.answers then w
      else if !Valid(call.movement) then Answered(w, w.ledger, pid, call, Err(BAD_REQUEST))
      else
        var prior := PreCheck(w.ledger, call.account, call.key, call.movement);
        if prior.Some? then Answered(w, w.ledger, pid, call, prior.value)
        else w.(pending := w.pending[pid := call])
    case Commit(pid) =>
      if pid !in w.pending then w
      else
        var call := w.pending[pid];
        var (ledger, answer) := LockedStep(w.ledger, call.account, call.key, call.movement);
        Answered(w, ledger, pid, call, answer)
    case Crash(pid) => w.(pending := w.pending - {pid})
    case Charge(monetized, snapshot, owner, dispatch) =>
      w.(ledger := ChargeStep(w.ledger, monetized, snapshot, owner, dispatch).0)
    case Return(boundary, owner, dispatch) => w.(ledger := RefundStep(w.ledger, boundary, owner, dispatch).0)
  }

  function Run(w: World, ops: seq<Op>): World
    decreases |ops|
  {
    if ops == [] then w else Run(Apply(w, ops[0]), ops[1..])
  }

  /** A successful answer shows the entry of its own account, key and request. */
  ghost predicate Backed(w: World, pid: nat)
    requires pid in w.answers && pid in w.calls
  {
    w.answers[pid].Ok? ==>
      var e := w.answers[pid].value.entry;
      && e.id < |w.ledger.entries| && w.ledger.entries[e.id] == e
      && e.account == w.calls[pid].account && e.origin == Human(w.calls[pid].key, w.calls[pid].movement)
  }

  predicate First(w: World, pid: nat) { pid in w.answers && w.answers[pid].Ok? && !w.answers[pid].value.replayed }

  ghost predicate AnswersSound(w: World) {
    && w.answers.Keys == w.calls.Keys
    && (forall pid :: pid in w.pending ==> Valid(w.pending[pid].movement))
    && (forall pid :: pid in w.answers ==> Backed(w, pid))
    && (forall p, q :: First(w, p) && First(w, q) && p != q ==>
          w.answers[p].value.entry.id != w.answers[q].value.entry.id)
  }

  ghost predicate WorldSound(w: World) { Sound(w.ledger) && AnswersSound(w) }

  /** The entries already written stay where they are. */
  ghost predicate Extends(l: Ledger, after: Ledger) {
    |l.entries| <= |after.entries| && after.entries[..|l.entries|] == l.entries
  }

  lemma StepExtends(w: World, op: Op)
    ensures Extends(w.ledger, Apply(w, op).ledger)
  {}

  lemma GrowthKeepsAnswers(w: World, ledger: Ledger)
    requires AnswersSound(w) && Extends(w.ledger, ledger)
    ensures AnswersSound(w.(ledger := ledger))
  {
    forall pid | pid in w.answers ensures Backed(w.(ledger := ledger), pid) {
      assert Backed(w, pid);
      if w.answers[pid].Ok? {
        var id := w.answers[pid].value.entry.id;
        assert ledger.entries[..|w.ledger.entries|][id] == ledger.entries[id];
      }
    }
  }

  lemma AnswerIsSound(w: World, pid: nat, call: Call, answer: MoveAnswer)
    requires AnswersSound(w) && pid !in w.answers
    requires answer.Ok? ==>
               && answer.value.entry.id < |w.ledger.entries|
               && w.ledger.entries[answer.value.entry.id] == answer.value.entry
               && answer.value.entry.account == call.account
               && answer.value.entry.origin == Human(call.key, call.movement)
    requires answer.Ok? && !answer.value.replayed ==>
               forall p :: First(w, p) ==> w.answers[p].value.entry.id != answer.value.entry.id
    ensures AnswersSound(Answered(w, w.ledger, pid, call, answer))
  {
    var after := Answered(w, w.ledger, pid, call, answer);
    forall p | p in after.answers ensures Backed(after, p) {
      if p != pid { assert Backed(w, p); }
    }
    forall p, q | First(after, p) && First(after, q) && p != q
      ensures after.answers[p].value.entry.id != after.answers[q].value.entry.id
    {
      if p != pid { assert First(w, p); }
      if q != pid { assert First(w, q); }
    }
  }

  lemma CommitIsSound(w: World, pid: nat)
    requires WorldSound(w) && pid in w.pending && pid !in w.answers
    ensures WorldSound(Apply(w, Commit(pid)))
  {
    var call := w.pending[pid];
    var (ledger, answer) := LockedStep(w.ledger, call.account, call.key, call.movement);
    LockedIsSound(w.ledger, call.account, call.key, call.movement);
    StepExtends(w, Commit(pid));
    GrowthKeepsAnswers(w, ledger);
    FoundByKey(w.ledger.entries, call.account, call.key);
    var grown := w.(ledger := ledger);
    forall p | First(grown, p) ensures First(w, p) && w.answers[p].value.entry.id < |w.ledger.entries| {
      assert First(w, p) && Backed(w, p);
    }
    AnswerIsSound(grown, pid, call, answer);
  }

  lemma BackedStays(w: World, after: World)
    requires AnswersSound(w)
    requires after.ledger == w.ledger && after.answers == w.answers && after.calls == w.calls
    requires forall pid :: pid in after.pending ==> Valid(after.pending[pid].movement)
    ensures AnswersSound(after)
  {
    forall pid | pid in after.answers ensures Backed(after, pid) { assert Backed(w, pid); }
    forall p, q | First(after, p) && First(after, q) && p != q
      ensures after.answers[p].value.entry.id != after.answers[q].value.entry.id
    { assert First(w, p) && First(w, q); }
  }

  lemma BeginIsSound(w: World, pid: nat, call: Call)
    requires WorldSound(w)
    ensures WorldSound(Apply(w, Begin(pid, call)))
  {
    var after := Apply(w, Begin(pid, call));
    if pid !in w.pending && pid !in w.answers {
      FoundByKey(w.ledger.entries, call.account, call.key);
      if pid in after.answers {
        AnswerIsSound(w, pid, call, after.answers[pid]);
      } else {
        BackedStays(w, after);
      }
    }
  }

  lemma StepIsSound(w: World, op: Op)
    requires WorldSound(w) && w.pending.Keys !! w.answers.Keys
    ensures WorldSound(Apply(w, op)) && Apply(w, op).pending.Keys !! Apply(w, op).answers.Keys
  {
    StepExtends(w, op);
    var after := Apply(w, op);
    match op
    case OpenAccount(owner) => OpenAccountIsSound(w.ledger, owner); GrowthKeepsAnswers(w, after.ledger);
    case Begin(pid, call) => BeginIsSound(w, pid, call);
    case Commit(pid) => if pid in w.pending { CommitIsSound(w, pid); }
    case Crash(pid) => BackedStays(w, after);
    case Charge(monetized, snapshot, owner, dispatch) =>
      ChargeIsSound(w.ledger, monetized, snapshot, owner, dispatch);
      GrowthKeepsAnswers(w, after.ledger);
    case Return(boundary, owner, dispatch) =>
      RefundIsSound(w.ledger, boundary, owner, dispatch);
      GrowthKeepsAnswers(w, after.ledger);
  }

  lemma {:induction false} RunIsSound(w: World, ops: seq<Op>)
    requires WorldSound(w) && w.pending.Keys !! w.answers.Keys
    ensures WorldSound(Run(w, ops))
    decreases |ops|
  {
    if ops != [] {
      StepIsSound(w, ops[0]);
      RunIsSound(Apply(w, ops[0]), ops[1..]);
    }
  }

  // ---------------------------------------------------------------- the ledger is a chain

  function EntriesOf(es: seq<Entry>, account: nat): seq<Entry> {
    if es == [] then []
    else
      var rest, last := EntriesOf(es[..|es| - 1], account), es[|es| - 1];
      if last.account == account then rest + [last] else rest
  }

  /** An entry that starts at `from`, moves exactly its amount, and stays inside every limit. */
  ghost predicate Continues(from: int, e: Entry) {
    && e.before == from && e.after == e.before + e.amount
    && 0 <= e.before <= MAX_CREDIT_BALANCE && 0 <= e.after <= MAX_CREDIT_BALANCE
    && SignAllowed(e.kind, e.amount)
  }

  function EndOf(es: seq<Entry>): int { if es == [] then 0 else es[|es| - 1].after }

  /** Gap-free from 0: each entry starts where the previous one ended, and the last ends at the balance. */
  ghost predicate GapFree(es: seq<Entry>, balance: int) {
    && (forall i :: 0 <= i < |es| ==> Continues(EndOf(es[..i]), es[i]))
    && balance == EndOf(es) == SumOfAmounts(es)
  }

  lemma GapFreeGrows(es: seq<Entry>, e: Entry)
    requires GapFree(es, EndOf(es)) && Continues(EndOf(es), e)
    ensures GapFree(es + [e], e.after)
  {
    var after := es + [e];
    assert after[..|es|] == es;
    forall i | 0 <= i < |after| ensures Continues(EndOf(after[..i]), after[i]) {
      assert after[..i] == es[..i];
      if i < |es| { assert Continues(EndOf(es[..i]), es[i]); }
    }
  }

  lemma {:induction false} EntriesFormAChain(es: seq<Entry>, account: nat)
    requires EntriesSound(es)
    ensures GapFree(EntriesOf(es, account), BalanceAfter(es, account))
    ensures 0 <= BalanceAfter(es, account) <= MAX_CREDIT_BALANCE
  {
    if es != [] {
      var n := |es| - 1;
      EntriesFormAChain(es[..n], account);
      if es[n].account == account { GapFreeGrows(EntriesOf(es[..n], account), es[n]); }
    }
  }

  /**
   * After any mix and interleaving of movements, awards and refunds, every account's entries chain
   * without a gap from 0 to its balance, inside the limits, and the balances add up to the entries.
   */
  lemma LedgerIsAChain(ops: seq<Op>, account: nat)
    ensures var l := Run(START, ops).ledger;
            && SumOfBalances(l.accounts) == SumOfAmounts(l.entries)
            && (account < |l.accounts| ==>
                  && GapFree(EntriesOf(l.entries, account), l.accounts[account].balance)
                  && 0 <= l.accounts[account].balance <= MAX_CREDIT_BALANCE)
            && (account >= |l.accounts| ==> EntriesOf(l.entries, account) == [])
  {
    RunIsSound(START, ops);
    var l := Run(START, ops).ledger;
    EntriesFormAChain(l.entries, account);
    if account >= |l.accounts| { NoEntriesOf(l.entries, account); }
  }

  lemma {:induction false} NoEntriesOf(es: seq<Entry>, account: nat)
    requires forall i :: 0 <= i < |es| ==> es[i].account != account
    ensures EntriesOf(es, account) == []
  {
    if es != [] { NoEntriesOf(es[..|es| - 1], account); }
  }

  // ---------------------------------------------------------------- a key moves credits once

  predicate SameKey(a: Entry, b: Entry) {
    a.account == b.account && a.origin.Human? && b.origin.Human? && a.origin.key == b.origin.key
  }

  /**
   * For any interleaving of any number of movements: at most one entry per (account, key); a call that
   * succeeded holds that entry and asked for exactly what it records; and of the calls that share a
   * key at most one was not a replay.
   */
  lemma KeysMoveOnce(ops: seq<Op>, i: nat, j: nat, p: nat, q: nat)
    ensures var w := Run(START, ops);
            var es := w.ledger.entries;
            && (i < |es| && j < |es| && SameKey(es[i], es[j]) ==> i == j)
            && (p in w.answers && w.answers[p].Ok? ==>
                  p in w.calls && ByKey(es, w.calls[p].account, w.calls[p].key) == Some(w.answers[p].value.entry)
                  && w.answers[p].value.entry.origin == Human(w.calls[p].key, w.calls[p].movement))
            && (First(w, p) && First(w, q) && SameKey(w.answers[p].value.entry, w.answers[q].value.entry) ==> p == q)
  {
    RunIsSound(START, ops);
    var w := Run(START, ops);
    var es := w.ledger.entries;
    if i < |es| && j < |es| && es[i].origin.Human? {
      FoundByKey(es, es[i].account, es[i].origin.key);
      EntryIds(es, i);
      EntryIds(es, j);
    }
    if p in w.answers && w.answers[p].Ok? {
      assert Backed(w, p);
      FoundByKey(es, w.calls[p].account, w.calls[p].key);
    }
    if q in w.answers && w.answers[q].Ok? { assert Backed(w, q); }
  }

  lemma {:induction false} EntryIds(es: seq<Entry>, i: nat)
    requires EntriesSound(es) && i < |es|
    ensures es[i].id == i && Fits(es[..i], es[i])
  {
    if i < |es| - 1 {
      EntryIds(es[..|es| - 1], i);
      assert es[..|es| - 1][..i] == es[..i];
    }
  }

  /** Committing writes one entry when it answers first, and nothing at all otherwise. */
  lemma OnlyTheFirstMoves(l: Ledger, account: nat, key: string, m: Movement)
    requires Sound(l) && Valid(m)
    ensures var (after, answer) := LockedStep(l, account, key, m);
            && (answer.Ok? && !answer.value.replayed ==>
                  && after.entries == l.entries + [answer.value.entry]
                  && after.accounts[account].balance == l.accounts[account].balance + m.amount)
            && (account < |l.accounts| ==> -MAX_INT32 <= l.accounts[account].balance + m.amount <= MAX_INT32)
            && (!(answer.Ok? && !answer.value.replayed) ==> after == l)
            && (answer == Err(INSUFFICIENT_CREDITS) ==> l.accounts[account].balance + m.amount < 0)
            && (answer.Ok? ==> PreCheck(after, account, key, m) == Some(Ok(Receipt(answer.value.entry, true))))
  {
    if LockedStep(l, account, key, m).1.Ok? { AnswersReplay(l, account, key, m); }
  }

  /** Whatever a transaction answered, the next look before any lock answers again. */
  lemma AnswersReplay(l: Ledger, account: nat, key: string, m: Movement)
    requires Sound(l) && LockedStep(l, account, key, m).1.Ok?
    ensures var (after, answer) := LockedStep(l, account, key, m);
            PreCheck(after, account, key, m) == Some(Ok(Receipt(answer.value.entry, true)))
  {
    FoundByKey(l.entries, account, key);
    if ByKey(l.entries, account, key).None? {
      var after := LockedStep(l, account, key, m).0;
      assert after.entries[..|l.entries|] == l.entries;
    }
  }

  /** Nor does any sum an award or a refund computes, whether or not it is then refused. */
  lemma NoSumOverflows(l: Ledger, owner: Owner, dispatch: nat, credits: Credits)
    requires Sound(l) && AccountOf(l.accounts, owner).Some?
    ensures var a := AccountOf(l.accounts, owner).value;
            && -MAX_INT32 <= l.accounts[a].balance - (credits as int) <= MAX_INT32
            && (FindAward(l.entries, a, dispatch).Some? ==>
                  0 <= l.accounts[a].balance - FindAward(l.entries, a, dispatch).value.amount <= MAX_INT32)
  {
    FoundAward(l.entries, AccountOf(l.accounts, owner).value, dispatch);
  }

  lemma {:induction false} RunExtends(w: World, ops: seq<Op>)
    ensures Extends(w.ledger, Run(w, ops).ledger)
    decreases |ops|
  {
    if ops != [] {
      StepExtends(w, ops[0]);
      RunExtends(Apply(w, ops[0]), ops[1..]);
      var mid, end := Apply(w, ops[0]).ledger, Run(w, ops).ledger;
      assert end.entries[..|w.ledger.entries|] == end.entries[..|mid.entries|][..|w.ledger.entries|];
    }
  }

  /**
   * Once a key is used, whatever runs afterwards, the same request gets that entry back, any other
   * request is refused, at both looks, and nothing moves.
   */
  lemma UsedKeyIsSettled(w: World, ops: seq<Op>, i: nat, m: Movement)
    requires WorldSound(w) && w.pending.Keys !! w.answers.Keys
    requires i < |w.ledger.entries| && w.ledger.entries[i].origin.Human?
    ensures var e := w.ledger.entries[i];
            var later := Run(w, ops).ledger;
            var answer: MoveAnswer := if e.origin.request == m then Ok(Receipt(e, true)) else Err(CREDIT_IDEMPOTENCY_CONFLICT);
            && PreCheck(later, e.account, e.origin.key, m) == Some(answer)
            && LockedStep(later, e.account, e.origin.key, m) == (later, answer)
  {
    var e, later := w.ledger.entries[i], Run(w, ops).ledger;
    RunIsSound(w, ops);
    RunExtends(w, ops);
    assert later.entries[..|w.ledger.entries|][i] == later.entries[i];
    FoundByKey(later.entries, e.account, e.origin.key);
  }

  // ---------------------------------------------------------------- one dispatch on one account

  predicate About(e: Entry, account: nat, dispatch: nat) {
    e.account == account && !e.origin.Human? && e.origin.dispatch == dispatch
  }

  function ServiceEntries(es: seq<Entry>, account: nat, dispatch: nat): seq<Entry> {
    if es == [] then []
    else
      var rest, last := ServiceEntries(es[..|es| - 1], account, dispatch), es[|es| - 1];
      if About(last, account, dispatch) then rest + [last] else rest
  }

  function Net(es: seq<Entry>, account: nat, dispatch: nat): int { SumOfAmounts(ServiceEntries(es, account, dispatch)) }

  /** What the entries of one account for one dispatch must be. */
  function Expected(es: seq<Entry>, account: nat, dispatch: nat): seq<Entry> {
    match FindAward(es, account, dispatch)
    case None => []
    case Some(award) =>
      match FindRefund(es, award.id)
      case None => [award]
      case Some(back) => [award, back]
  }

  lemma {:induction false} FoundRefund(es: seq<Entry>, award: Entry)
    requires EntriesSound(es) && award.id < |es| && es[award.id] == award && award.origin.Award?
    ensures var found := FindRefund(es, award.id);
            && (found.Some? ==>
                  && found.value.amount == -award.amount && found.value.account == award.account
                  && found.value.origin == Refund(award.origin.dispatch, award.id))
            && (found.None? ==> forall i :: 0 <= i < |es| ==> es[i].origin != Refund(award.origin.dispatch, award.id))
  {
    var n := |es| - 1;
    if award.id < n {
      FoundRefund(es[..n], award);
    } else {
      NoRefundYet(es[..n], n);
    }
  }

  lemma {:induction false} NoRefundYet(es: seq<Entry>, award: nat)
    requires EntriesSound(es) && |es| <= award
    ensures FindRefund(es, award).None? && forall i :: 0 <= i < |es| && es[i].origin.Refund? ==> es[i].origin.reverses != award
  {
    if es != [] { NoRefundYet(es[..|es| - 1], award); }
  }

  /**
   * In every sound ledger, one account's entries for one dispatch are none, one award, or one award and
   * its exact opposite refund; so the net is minus what was charged and not returned.
   */
  lemma ServiceEntriesAreAnAwardAndItsRefund(es: seq<Entry>, account: nat, dispatch: nat)
    requires EntriesSound(es)
    ensures ServiceEntries(es, account, dispatch) == Expected(es, account, dispatch)
    ensures var award := FindAward(es, account, dispatch);
            Net(es, account, dispatch) ==
              if award.Some? && FindRefund(es, award.value.id).None? then award.value.amount else 0
  {
    ServiceEntriesAreExpected(es, account, dispatch);
    FoundAward(es, account, dispatch);
    var award := FindAward(es, account, dispatch);
    if award.Some? {
      FoundRefund(es, award.value);
      assert SumOfAmounts([award.value]) == award.value.amount;
      if FindRefund(es, award.value.id).Some? {
        var back := FindRefund(es, award.value.id).value;
        assert [award.value, back][..1] == [award.value];
      }
    }
  }

  lemma {:induction false} ServiceEntriesAreExpected(es: seq<Entry>, account: nat, dispatch: nat)
    requires EntriesSound(es)
    ensures ServiceEntries(es, account, dispatch) == Expected(es, account, dispatch)
  {
    if es != [] {
      var n := |es| - 1;
      ServiceEntriesAreExpected(es[..n], account, dispatch);
      FoundAward(es[..n], account, dispatch);
      NoRefundYet(es[..n], n);
      var award := FindAward(es[..n], account, dispatch);
      if award.Some? { FoundRefund(es[..n], award.value); }
      if es[n].origin.Refund? && About(es[n], account, dispatch) {
        EntryIds(es[..n], es[n].origin.reverses);
        assert es[..n][es[n].origin.reverses].origin == Award(dispatch);
      }
    }
  }

  // ---------------------------------------------------------------- the service

  class CreditAccountsService {
    var accounts: seq<Account>
    var entries: seq<Entry>

    function View(): Ledger reads this { Ledger(accounts, entries) }

    constructor ()
      ensures View() == EMPTY
    {
      accounts, entries := [], [];
    }

    method OpenAccount(owner: Owner)
      modifies this`accounts
      ensures View() == OpenAccountStep(old(View()), owner)
    {
      if AccountOf(accounts, owner).None? { accounts := accounts + [Account(owner, 0)]; }
    }

    /** The insert and its trigger. */
    method Insert(account: nat, kind: EntryType, amount: int, origin: Origin) returns (entry: Entry)
      requires account < |accounts|
      modifies this
      ensures View() == Append(old(View()), account, kind, amount, origin)
      ensures entry == entries[|old(entries)|]
    {
      var before := accounts[account].balance;
      entry := Entry(|entries|, account, kind, amount, before, before + amount, origin);
      entries := entries + [entry];
      accounts := accounts[account := accounts[account].(balance := before + amount)];
    }

    /** A call that nothing interleaves with: its look and its transaction back to back. */
    method Move(account: nat, m: Movement, key: string) returns (r: MoveAnswer)
      modifies this
      ensures var look := PreCheck(old(View()), account, key, m);
              (View(), r) == if look.Some? then (old(View()), look.value) else LockedStep(old(View()), account, key, m)
    {
      var prior := ByKey(entries, account, key);
      if prior.Some? { return Replay(prior.value, m); }
      r := Locked(account, m, key);
    }

    method Locked(account: nat, m: Movement, key: string) returns (r: MoveAnswer)
      modifies this
      ensures (View(), r) == LockedStep(old(View()), account, key, m)
    {
      if account >= |accounts| { return Err(CREDIT_ACCOUNT_NOT_FOUND); }
      var raced := ByKey(entries, account, key);
      if raced.Some? { return Replay(raced.value, m); }
      var next := NextBalance(accounts[account].balance, m.amount);
      if next.Err? { return Err(next.error); }
      var entry := Insert(account, KindOf(m), m.amount, Human(key, m));
      return Ok(Receipt(entry, false));
    }

    method ChargeDispatchAward(monetized: bool, snapshot: Option<Credits>, owner: Owner, dispatch: nat)
      returns (r: Result<AwardOutcome, CreditError>)
      modifies this
      ensures (View(), r) == ChargeStep(old(View()), monetized, snapshot, owner, dispatch)
    {
      if !monetized { return Ok(LegacyAward); }
      if snapshot.None? { return Err(CREDIT_SNAPSHOT_UNAVAILABLE); }
      var account := AccountOf(accounts, owner);
      if account.None? { return Err(CREDIT_ACCOUNT_UNAVAILABLE); }
      var cost: int := snapshot.value;
      var next := NextBalance(accounts[account.value].balance, -cost);
      if next.Err? { return Err(next.error); }
      if FindAward(entries, account.value, dispatch).Some? { return Err(CREDIT_MOVEMENT_CONFLICT); }
      var entry := Insert(account.value, SERVICE_AWARD, -cost, Award(dispatch));
      return Ok(Charged(entry));
    }

    method RefundDispatchAward(boundary: Boundary, owner: Owner, dispatch: nat)
      returns (r: Result<RefundOutcome, CreditError>)
      modifies this
      ensures (View(), r) == RefundStep(old(View()), boundary, owner, dispatch)
    {
      var account := AccountOf(accounts, owner);
      var award := None;
      if account.Some? { award := FindAward(entries, account.value, dispatch); }
      if award.None? {
        if !boundary.ENFORCED? { return Ok(NothingOwed(boundary)); }
        return Err(CREDIT_REFUND_INTEGRITY_ERROR);
      }
      var existing := FindRefund(entries, award.value.id);
      if existing.Some? { return Ok(Already(existing.value)); }
      if award.value.account >= |accounts| { return Err(CREDIT_REFUND_INTEGRITY_ERROR); }
      var credits := -award.value.amount;
      var next := NextBalance(accounts[award.value.account].balance, credits);
      if next.Err? { return Err(next.error); }
      var entry := Insert(award.value.account, SERVICE_REFUND, credits, Refund(dispatch, award.value.id));
      return Ok(Refunded(entry));
    }
  }
}
