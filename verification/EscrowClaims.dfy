// In a failed round the order of the contributors' claims does not matter.
module EscrowClaims {
  import opened Prelude
  import opened EscrowTypes
  import opened EscrowRules
  import opened EscrowMoves
  import opened EscrowSafety
  import opened EscrowRuns
  import opened EscrowTraces
  import opened EscrowSuccess
  import opened EscrowHistory
  import opened EscrowExit

  /** The contributors in `order` claim one after another, each signing alone. */
  ghost function ClaimInOrder(s: State, id: nat, order: seq<Address>): Outcome<State> {
    if order == [] then Ok(s)
    else
      var n := |order| - 1;
      var t :- ClaimInOrder(s, id, order[..n]);
      var m :- ClaimRule(t, {order[n]}, id, order[n], NO_FAULTS);
      Ok(Next(t, m))
  }

  function Members(order: seq<Address>): set<Address> { set a | a in order }

  ghost function Marked(contributions: Contributions, id: nat, who: set<Address>): Contributions {
    map k | k in contributions :: if k.0 == id && k.1 in who then contributions[k].(refunded := true) else contributions[k]
  }

  /** What the claims of `who` add to holder `x`, the pool's total having dropped to `left`. */
  ghost function Change(s: State, id: nat, who: set<Address>, x: Address, left: int): int
    requires id in s.escrows
  {
    (if x in who then RecordOf(s, id, x).amount else 0)
    - (if x == Contract then s.escrows[id].amount - left else 0)
  }

  ghost predicate BalancesClaimed(s: State, b: Balances, id: nat, who: set<Address>, left: int)
    requires id in s.escrows
  {
    var token := s.escrows[id].token;
    && b.Keys == s.balances.Keys + (if who == {} then {} else {(token, Contract)}) + (set a | a in who :: (token, a))
    && forall t: Address, x: Address ::
         Balance(b, t, x) == Balance(s.balances, t, x) + if t == token then Change(s, id, who, x, left) else 0
  }

  ghost predicate LiabilityClaimed(s: State, l: map<Address, int>, id: nat, who: set<Address>, left: int)
    requires id in s.escrows
  {
    var e := s.escrows[id];
    l == if who == {} then s.liability else s.liability[e.token := Liability(s, e.token) - (e.amount - left)]
  }

  /** The state after the contributors in `who` have claimed, whatever the order. */
  ghost predicate ClaimedBy(s: State, t: State, id: nat, who: set<Address>)
    requires id in s.escrows
  {
    var left := Pledged(t.contributions, id);
    && (who == {} ==> left == s.escrows[id].amount)
    && t.contributions == Marked(s.contributions, id, who)
    && t.escrows == s.escrows[id := s.escrows[id].(amount := left)]
    && LiabilityClaimed(s, t.liability, id, who, left)
    && BalancesClaimed(s, t.balances, id, who, left)
    && t == s.(contributions := t.contributions, escrows := t.escrows, liability := t.liability,
               balances := t.balances, events := t.events)
  }

  ghost predicate CanAllClaim(s: State, id: nat, order: seq<Address>) {
    && !HasDuplicates(order)
    && forall a :: a in order ==> (id, a) in s.contributions && !s.contributions[(id, a)].refunded
  }

  lemma NobodyClaimed(s: State, id: nat)
    requires Inv(s) && RoundFailed(s, id)
    ensures ClaimedBy(s, s, id, {})
  {
    hide Inv, Balance;
    RecordFacts(s, id);
    assert Marked(s.contributions, id, {}) == s.contributions;
    assert s.escrows[id := s.escrows[id]] == s.escrows;
    assert s.escrows[id].(amount := Pledged(s.contributions, id)) == s.escrows[id];
  }

  lemma MarkOneMore(c: Contributions, id: nat, who: set<Address>, a: Address)
    requires (id, a) in c && a !in who
    ensures var m := Marked(c, id, who);
            && (id, a) in m && m[(id, a)] == c[(id, a)]
            && Marked(c, id, who + {a}) == m[(id, a) := m[(id, a)].(refunded := true)]
  {
  }

  lemma ClaimBooks(t: State, signers: set<Address>, id: nat, a: Address)
    requires Inv(t) && MayClaim(t, id, a, signers)
    ensures var u, e, c := Next(t, Claim(id, a)), t.escrows[id], t.contributions[(id, a)];
            && u.liability == t.liability[e.token := Owing(t.liability, e.token) - c.amount]
            && u.balances == Transfer(t.balances, e.token, Contract, a, c.amount)
            && u == t.(contributions := u.contributions, escrows := u.escrows, liability := u.liability,
                       balances := u.balances, events := u.events)
            && Pledged(u.contributions, id) == Pledged(t.contributions, id) - c.amount == t.escrows[id].amount - c.amount
            && a != Contract
  {
    hide Inv, Transfer, GoodPool, GoodRecord, Pledged;
    ClaimFacts(t, signers, id, a);
    ClaimPledges(t, id, a);
    ClaimRewrites(t, signers, id, a);
  }

  lemma BalancesAfterClaim(s: State, b: Balances, id: nat, who: set<Address>, left: int, a: Address)
    requires id in s.escrows && BalancesClaimed(s, b, id, who, left) && a !in who && a != Contract
    requires (id, a) in s.contributions
    ensures var e, c := s.escrows[id], s.contributions[(id, a)];
            BalancesClaimed(s, Transfer(b, e.token, Contract, a, c.amount), id, who + {a}, left - c.amount)
  {
    hide Balance, Transfer;
    var token, amount := s.escrows[id].token, s.contributions[(id, a)].amount;
    TransferAt(b, token, Contract, a, amount);
    assert (set x | x in who + {a} :: (token, x)) == (set x | x in who :: (token, x)) + {(token, a)};
  }

  lemma LiabilityAfterClaim(s: State, l: map<Address, int>, id: nat, who: set<Address>, left: int, a: Address, amount: int)
    requires id in s.escrows && LiabilityClaimed(s, l, id, who, left)
    requires who == {} ==> left == s.escrows[id].amount
    ensures var token := s.escrows[id].token;
            LiabilityClaimed(s, l[token := Owing(l, token) - amount], id, who + {a}, left - amount)
  {
    assert who + {a} != {};
  }

  lemma ClaimExtends(s: State, t: State, id: nat, who: set<Address>, a: Address)
    requires Inv(s) && Inv(t) && RoundFailed(s, id) && RoundFailed(t, id)
    requires ClaimedBy(s, t, id, who) && a !in who
    requires (id, a) in s.contributions && !s.contributions[(id, a)].refunded
    ensures ClaimRule(t, {a}, id, a, NO_FAULTS) == Ok(Claim(id, a))
    ensures var u := Next(t, Claim(id, a));
            Inv(u) && RoundFailed(u, id) && ClaimedBy(s, u, id, who + {a}) && a != Contract
  {
    hide Inv, ClaimRule, Transfer, Pledged, Marked, Next, Owing, BalancesClaimed, LiabilityClaimed;
    MarkOneMore(s.contributions, id, who, a);
    ContributionFacts(t, (id, a));
    ClaimOutcome(t, {a}, id, a, NO_FAULTS);
    ClaimShrinks(t, {a}, id, a);
    ClaimRewrites(t, {a}, id, a);
    ClaimBooks(t, {a}, id, a);
    var left := Pledged(t.contributions, id);
    BalancesAfterClaim(s, t.balances, id, who, left, a);
    LiabilityAfterClaim(s, t.liability, id, who, left, a, s.contributions[(id, a)].amount);
    assert who + {a} != {};
  }

  /** Two states reached by the same claimants agree on everything but the order of events. */
  lemma ClaimedByUnique(s: State, t: State, u: State, id: nat, who: set<Address>)
    requires id in s.escrows && ClaimedBy(s, t, id, who) && ClaimedBy(s, u, id, who)
    ensures t.(events := []) == u.(events := [])
  {
    hide Pledged, Marked, Balance;
    SameBalances(t.balances, u.balances, s, id, who, Pledged(t.contributions, id));
  }

  lemma SameBalances(b: Balances, c: Balances, s: State, id: nat, who: set<Address>, left: int)
    requires id in s.escrows && BalancesClaimed(s, b, id, who, left) && BalancesClaimed(s, c, id, who, left)
    ensures b == c
  {
    forall k | k in b ensures k in c && b[k] == c[k] {
      assert Balance(b, k.0, k.1) == Balance(c, k.0, k.1);
    }
  }

  /** Every order of claims succeeds and reaches the state its set of claimants determines. */
  lemma {:induction false} ClaimsSucceed(s: State, id: nat, order: seq<Address>)
    requires Inv(s) && RoundFailed(s, id) && CanAllClaim(s, id, order)
    ensures var r := ClaimInOrder(s, id, order);
            r.Ok? && Inv(r.value) && RoundFailed(r.value, id)
            && ClaimedBy(s, r.value, id, Members(order)) && Contract !in order
  {
    hide Inv, ClaimRule, Next, RoundFailed, ClaimedBy;
    if order == [] {
      NobodyClaimed(s, id);
      assert Members(order) == {};
    } else {
      var n := |order| - 1;
      var before := order[..n];
      assert order == before + [order[n]];
      assert CanAllClaim(s, id, before) && order[n] !in before;
      ClaimsSucceed(s, id, before);
      var t := ClaimInOrder(s, id, before).value;
      assert order[n] in order;
      assert id in s.escrows by { FailedExists(s, id); }
      ClaimExtends(s, t, id, Members(before), order[n]);
      assert Members(order) == Members(before) + {order[n]};
    }
  }

  lemma FailedExists(s: State, id: nat)
    requires RoundFailed(s, id)
    ensures id in s.escrows
  {
  }

  /**
   * In a failed round every permutation of the same claimants succeeds, ends in
   * the same storage and the same balances, and pays each claimant exactly the
   * amount recorded for them.
   */
  lemma ClaimOrderIrrelevant(s: State, id: nat, p: seq<Address>, q: seq<Address>)
    requires Inv(s) && RoundFailed(s, id) && CanAllClaim(s, id, p)
    requires !HasDuplicates(q) && forall a :: a in p <==> a in q
    ensures var r1, r2 := ClaimInOrder(s, id, p), ClaimInOrder(s, id, q);
            && r1.Ok? && r2.Ok?
            && r1.value.(events := []) == r2.value.(events := [])
            && id in s.escrows
            && (forall a :: a in p ==>
                  Balance(r1.value.balances, s.escrows[id].token, a)
                  == Balance(s.balances, s.escrows[id].token, a) + s.contributions[(id, a)].amount)
  {
    hide Inv, Pledged, Marked, ClaimInOrder, RoundFailed, Balance;
    ClaimsSucceed(s, id, p);
    ClaimsSucceed(s, id, q);
    FailedExists(s, id);
    var who := Members(p);
    assert Members(q) == who;
    var t, u := ClaimInOrder(s, id, p).value, ClaimInOrder(s, id, q).value;
    ClaimedByUnique(s, t, u, id, who);
    forall a | a in p
      ensures Balance(t.balances, s.escrows[id].token, a)
           == Balance(s.balances, s.escrows[id].token, a) + s.contributions[(id, a)].amount
    {
      assert a in who && a != Contract && RecordOf(s, id, a) == s.contributions[(id, a)];
    }
  }

  /** When every unclaimed contributor has claimed, the pool holds nothing. */
  lemma AllClaimsEmptyThePool(s: State, id: nat, order: seq<Address>)
    requires Inv(s) && RoundFailed(s, id) && CanAllClaim(s, id, order)
    requires forall k :: k in s.contributions && k.0 == id && !s.contributions[k].refunded ==> k.1 in order
    ensures var r := ClaimInOrder(s, id, order);
            r.Ok? && id in r.value.escrows && r.value.escrows[id].amount == 0
  {
    hide Inv, ClaimInOrder, RoundFailed, BalancesClaimed, LiabilityClaimed;
    ClaimsSucceed(s, id, order);
    FailedExists(s, id);
    var t := ClaimInOrder(s, id, order).value;
    NothingPledged(s.contributions, id, order);
  }

  lemma NothingPledged(c: Contributions, id: nat, order: seq<Address>)
    requires forall k :: k in c && k.0 == id && !c[k].refunded ==> k.1 in order
    ensures Pledged(Marked(c, id, Members(order)), id) == 0
  {
    SumZero(Marked(c, id, Members(order)), PledgedTerm(id));
  }
}
