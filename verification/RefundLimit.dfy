/**
 * A run in which a reversal is refused: a provider wins a dispatch, is recharged up to the maximum
 * balance while it holds it, and then cannot release it, because the credits would not fit back.
 */
module RefundLimit {
  import opened Common
  import opened DispatchPolicy
  import L = CreditLedger
  import E = DispatchEconomy

  const PROVIDER := L.Owner(L.PROVIDER, 1)

  /** One credit, one dispatch that costs one credit, and its claim. */
  const WIN: seq<E.Op> := [
    E.NewAccount(PROVIDER), E.Move(0, "first-one", L.Recharge(1, L.CASH, None, None)),
    E.Publish(7, 3, Window(10, 0, 1, false), true, true, map[L.PROVIDER := 1], {1}), E.Claim(7, 1, true)]

  /** Keys of 8 to 207 letters, a different letter for each two hundred. */
  function KeyOf(i: nat): string
    requires i < 1000
  {
    seq(8 + i % 200, j => 'a' + ((i / 200) as char))
  }

  lemma KeysDiffer(i: nat, j: nat)
    requires i < j < 1000
    ensures KeyOf(i) != KeyOf(j)
  {
    if i % 200 == j % 200 { assert KeyOf(i)[0] != KeyOf(j)[0]; }
  }

  function Recharges(n: nat): seq<E.Op>
    requires n <= 1000
  {
    if n == 0 then []
    else Recharges(n - 1) + [E.Move(0, KeyOf(n - 1), L.Recharge(L.MAX_CREDIT_MOVEMENT, L.TRANSFER, None, None))]
  }

  lemma {:induction false} RunAppends(e: E.Economy, first: seq<E.Op>, rest: seq<E.Op>)
    ensures E.Run(e, first + rest) == E.Run(E.Run(e, first), rest)
    decreases |first|
  {
    if first == [] {
      assert first + rest == rest;
    } else {
      assert (first + rest)[1..] == first[1..] + rest;
      RunAppends(E.Apply(e, first[0]), first[1..], rest);
    }
  }

  /** The provider holds dispatch 7, one account exists, and no human key but the first and n others was used. */
  ghost predicate Holding(e: E.Economy, n: nat)
    requires n <= 1000
  {
    && |e.ledger.accounts| == 1 && e.ledger.accounts[0] == L.Account(PROVIDER, n * L.MAX_CREDIT_MOVEMENT)
    && 7 in e.dispatches && 1 in e.dispatches[7].candidates
    && Held(e.dispatches[7])
    && forall i :: 0 <= i < |e.ledger.entries| && e.ledger.entries[i].origin.Human? ==>
         e.ledger.entries[i].origin.key == "first-one" || UsedBefore(e.ledger.entries[i].origin.key, n)
  }

  predicate Held(d: E.Dispatch) {
    && d.status == CLAIMED && d.holder == Provider(1) && d.active == None && d.monetized && d.exemptions == {}
    && d.snapshots == map[L.PROVIDER := 1]
  }

  ghost predicate UsedBefore(key: string, n: nat)
    requires n <= 1000
  {
    exists k: nat :: k < n && key == KeyOf(k)
  }

  lemma WinIsHeld()
    ensures Holding(E.Run(E.START, WIN), 0)
  {
    var e1 := E.Apply(E.START, WIN[0]);
    assert e1 == E.START.(ledger := L.Ledger([L.Account(PROVIDER, 0)], []));
    assert E.Run(E.START, WIN) == E.Run(e1, WIN[1..]);
    var first := L.Entry(0, 0, L.RECHARGE, 1, 0, 1, L.Human("first-one", WIN[1].movement));
    var e2 := E.Apply(e1, WIN[1]);
    assert e2 == e1.(ledger := L.Ledger([L.Account(PROVIDER, 1)], [first]));
    assert E.Run(e1, WIN[1..]) == E.Run(e2, WIN[2..]);
    var e3 := E.Apply(e2, WIN[2]);
    assert E.Run(e2, WIN[2..]) == E.Run(e3, WIN[3..]);
    Claimed(e2, first);
    assert E.Run(e3, WIN[3..]) == E.Run(E.Apply(e3, WIN[3]), WIN[4..]);
  }

  lemma Claimed(e: E.Economy, first: L.Entry)
    requires e.ledger == L.Ledger([L.Account(PROVIDER, 1)], [first]) && first.origin == L.Human("first-one", WIN[1].movement)
    requires e.clock == 0 && e.dispatches == map[] && e.cancelledRequests == {}
    ensures Holding(E.Apply(E.Apply(e, WIN[2]), WIN[3]), 0)
  {
    var open := E.Apply(e, WIN[2]);
    assert open.dispatches[7].candidates[1] == Offered;
    assert L.FindAward([first], 0, 7) == None;
    assert [L.Account(PROVIDER, 1)][0 := L.Account(PROVIDER, 0)] == [L.Account(PROVIDER, 0)];
  }

  lemma KeyIsNew(key: string, n: nat)
    requires n < 1000 && (key == "first-one" || UsedBefore(key, n))
    ensures key != KeyOf(n)
  {
    if key == "first-one" {
      assert KeyOf(n)[0] == KeyOf(n)[1];
    } else {
      var k: nat :| k < n && key == KeyOf(k);
      KeysDiffer(k, n);
    }
  }

  lemma RechargeKeepsHolding(e: E.Economy, n: nat)
    requires E.Sound(e) && n < 1000 && Holding(e, n)
    ensures Holding(E.Apply(e, E.Move(0, KeyOf(n), L.Recharge(L.MAX_CREDIT_MOVEMENT, L.TRANSFER, None, None))), n + 1)
  {
    var key := KeyOf(n);
    L.FoundByKey(e.ledger.entries, 0, key);
    forall i | 0 <= i < |e.ledger.entries| && e.ledger.entries[i].origin.Human?
      ensures e.ledger.entries[i].origin.key != key
    { KeyIsNew(e.ledger.entries[i].origin.key, n); }
    var after := E.Apply(e, E.Move(0, key, L.Recharge(L.MAX_CREDIT_MOVEMENT, L.TRANSFER, None, None)));
    forall i | 0 <= i < |after.ledger.entries| && after.ledger.entries[i].origin.Human?
      ensures after.ledger.entries[i].origin.key == "first-one" || UsedBefore(after.ledger.entries[i].origin.key, n + 1)
    {
      if i < |e.ledger.entries| {
        if UsedBefore(e.ledger.entries[i].origin.key, n) {
          var k: nat :| k < n && e.ledger.entries[i].origin.key == KeyOf(k);
        }
      } else {
        assert after.ledger.entries[i].origin.key == KeyOf(n);
      }
    }
  }

  lemma {:induction false} RechargedToTheLimit(e: E.Economy, n: nat)
    requires E.Sound(e) && Holding(e, 0) && n <= 1000
    ensures E.Sound(E.Run(e, Recharges(n))) && Holding(E.Run(e, Recharges(n)), n)
  {
    if n > 0 {
      RechargedToTheLimit(e, n - 1);
      var middle := E.Run(e, Recharges(n - 1));
      RechargeKeepsHolding(middle, n - 1);
      E.RunIsSound(e, Recharges(n));
      var last := E.Move(0, KeyOf(n - 1), L.Recharge(L.MAX_CREDIT_MOVEMENT, L.TRANSFER, None, None));
      RunAppends(e, Recharges(n - 1), [last]);
      assert E.Run(middle, [last]) == E.Apply(middle, last);
    }
  }

  lemma TheHolderIsRefused(e: E.Economy)
    requires E.Sound(e) && Holding(e, 1000)
    ensures E.ReleaseStep(e, 7, 1) == (e, Err(E.Economic(L.CREDIT_BALANCE_LIMIT)))
  {
    E.ReleaseIsRefusedIff(e, 7, 1);
    assert L.AccountOf(e.ledger.accounts, PROVIDER) == Some(0);
  }

  /** In a reachable state the holder asks to release, holds nothing back, and is refused. */
  lemma AReleaseCanBeRefused()
    ensures var e := E.Run(E.START, WIN + Recharges(1000));
            && E.Sound(e) && Holding(e, 1000)
            && E.ReleaseStep(e, 7, 1) == (e, Err(E.Economic(L.CREDIT_BALANCE_LIMIT)))
  {
    WinIsHeld();
    E.RunIsSound(E.START, WIN);
    RechargedToTheLimit(E.Run(E.START, WIN), 1000);
    RunAppends(E.START, WIN, Recharges(1000));
    TheHolderIsRefused(E.Run(E.START, WIN + Recharges(1000)));
  }
}
