// Every permitted move keeps the invariant and never shrinks the surplus
// balance - liability of any token.
module EscrowSafety {
  import opened Prelude
  import opened EscrowTypes
  import opened EscrowRules
  import opened EscrowMoves

  // ---- token ledgers -----------------------------------------------------

  lemma HoldersWithinSupply(b: Balances, token: Address, a: Address, c: Address)
    requires HonestTokens(b)
    ensures 0 <= Balance(b, token, a) <= I128_MAX
    ensures a != c ==> Balance(b, token, a) + Balance(b, token, c) <= I128_MAX
  {
    assert Supply(b, token) <= I128_MAX;
    var ka, kc := (token, a), (token, c);
    if ka in b { SumMember(b, SupplyTerm(token), ka); }
    if kc in b { SumMember(b, SupplyTerm(token), kc); }
    if a != c && ka in b && kc in b { SumPair(b, SupplyTerm(token), ka, kc); }
    SumNonNegative(b, SupplyTerm(token));
  }

  lemma TransferKeepsHonest(b: Balances, token: Address, from: Address, to: Address, amount: int)
    requires HonestTokens(b)
    requires 0 <= amount <= Balance(b, token, from)
    ensures HonestTokens(Transfer(b, token, from, to, amount))
  {
    var after := Transfer(b, token, from, to, amount);
    forall t: Address ensures Supply(after, t) <= I128_MAX {
      TransferKeepsSupply(b, token, from, to, amount, t);
      assert Supply(b, t) <= I128_MAX;
    }
  }

  /** Whoever the payees are, a settlement takes at most the amount from the contract. */
  lemma PayOutBound(b: Balances, e: Escrow, settled: Status)
    requires HonestTokens(b)
    requires 0 <= Fee(e, settled) <= e.amount <= Balance(b, e.token, Contract)
    requires e.feeRecipient.Some? ==> e.feeRecipient.value != Contract
    ensures HonestTokens(PayOut(b, e, settled))
    ensures Balance(PayOut(b, e, settled), e.token, Contract) >= Balance(b, e.token, Contract) - e.amount
    ensures Destination(e, settled) != Contract ==>
              Balance(PayOut(b, e, settled), e.token, Contract) == Balance(b, e.token, Contract) - e.amount
    ensures forall t: Address :: t != e.token ==> Balance(PayOut(b, e, settled), t, Contract) == Balance(b, t, Contract)
  {
    var fee := Fee(e, settled);
    var paid := PayFee(b, e, settled);
    if fee > 0 && e.feeRecipient.Some? {
      TransferKeepsHonest(b, e.token, Contract, e.feeRecipient.value, fee);
    }
    TransferKeepsHonest(paid, e.token, Contract, Destination(e, settled), e.amount - fee);
  }

  /** floor(amount * bps / 10000), at most a tenth for a rate of at most 1000. */
  lemma ShareBound(amount: int, bps: nat)
    requires 0 <= amount && bps <= MAX_FEE_BPS
    ensures 0 <= FeeShare(amount, bps) <= amount / 10 <= amount
    ensures FeeShare(amount, bps) * BASIS_POINTS <= amount * bps < (FeeShare(amount, bps) + 1) * BASIS_POINTS
  {
    var scaled := amount * bps;
    MulMonotone(amount, bps, 1_000);
    assert 0 <= scaled <= amount * 1_000;
  }

  lemma MulMonotone(a: int, x: int, y: int)
    requires 0 <= a && 0 <= x <= y
    ensures 0 <= a * x <= a * y
  {
  }

  /** The fee is the floored share, at most a tenth of the amount. */
  lemma FeeBound(e: Escrow, settled: Status)
    requires WellFormed(e)
    ensures 0 <= Fee(e, settled) <= e.amount
    ensures settled != Released ==> Fee(e, settled) == 0
  {
    if e.feeBps.Some? {
      ShareBound(e.amount, e.feeBps.value);
    }
  }

  // ---- sums under one write ----------------------------------------------

  lemma OwedAfterPut(escrows: Escrows, id: nat, e: Escrow)
    ensures forall t: Address ::
              Owed(escrows[id := e], t)
              == Owed(escrows, t)
               - (if id in escrows && escrows[id].status == Funded && escrows[id].token == t then escrows[id].amount else 0)
               + (if e.status == Funded && e.token == t then e.amount else 0)
  {
    forall t: Address {
      OwedUpdate(escrows, id, e, t);
    }
  }

  lemma PledgedElsewhere(contributions: Contributions, k: (nat, Address), c: Contribution)
    ensures forall id: nat :: id != k.0 ==> Pledged(contributions[k := c], id) == Pledged(contributions, id)
  {
    forall id: nat | id != k.0 ensures Pledged(contributions[k := c], id) == Pledged(contributions, id) {
      PledgedUpdate(contributions, k, c, id);
    }
  }

  /** No contribution is recorded against an id that is not pooled yet. */
  lemma PledgedFresh(contributions: Contributions, id: nat)
    requires forall k :: k in contributions ==> k.0 != id
    ensures Pledged(contributions, id) == 0
  {
    SumZero(contributions, PledgedTerm(id));
  }

  lemma PledgeWithin(contributions: Contributions, k: (nat, Address))
    requires k in contributions && !contributions[k].refunded
    requires forall j :: j in contributions ==> contributions[j].amount > 0
    ensures contributions[k].amount <= Pledged(contributions, k.0)
  {
    SumMember(contributions, PledgedTerm(k.0), k);
  }

  lemma AmountWithinLiability(s: State, id: nat)
    requires Inv(s) && id in s.escrows && s.escrows[id].status == Funded
    ensures 0 <= s.escrows[id].amount <= Liability(s, s.escrows[id].token) <= Balance(s.balances, s.escrows[id].token, Contract)
  {
    var token := s.escrows[id].token;
    forall j | j in s.escrows ensures OwedTerm(token)(j, s.escrows[j]) >= 0 {
      assert GoodRecord(s.escrows[j], j in s.pooled);
    }
    SumMember(s.escrows, OwedTerm(token), id);
    assert Liability(s, token) == Owed(s.escrows, token);
  }

  // ---- each clause under one write ---------------------------------------

  lemma ShapePut(escrows: Escrows, status: map<nat, Status>, pooled: map<nat, Pool>, contributions: Contributions,
                 contributions': Contributions, nextId: nat, id: nat, e: Escrow)
    requires Shape(escrows, status, pooled, contributions, nextId) && id in escrows
    requires forall k :: k in contributions' ==> k in contributions || k.0 in pooled
    ensures Shape(escrows[id := e], status[id := e.status], pooled, contributions', nextId)
    ensures e.status == escrows[id].status ==> Shape(escrows[id := e], status, pooled, contributions', nextId)
  {
  }

  lemma ShapeInsert(escrows: Escrows, status: map<nat, Status>, pooled: map<nat, Pool>,
                    contributions: Contributions, nextId: nat, e: Escrow, pool: Pool)
    requires Shape(escrows, status, pooled, contributions, nextId)
    ensures Shape(escrows[nextId := e], status[nextId := e.status], pooled, contributions, nextId + 1)
    ensures Shape(escrows[nextId := e], status[nextId := e.status], pooled[nextId := pool], contributions, nextId + 1)
  {
  }

  lemma RecordsPut(escrows: Escrows, pooled: map<nat, Pool>, id: nat, e: Escrow, pool: Pool)
    requires Records(escrows, pooled)
    ensures GoodRecord(e, id in pooled) ==> Records(escrows[id := e], pooled)
    ensures GoodRecord(e, true) ==> Records(escrows[id := e], pooled[id := pool])
  {
  }

  lemma PoolsPut(escrows: Escrows, pooled: map<nat, Pool>, contributions: Contributions,
                 id: nat, e: Escrow, contributions': Contributions)
    requires Pools(escrows, pooled, contributions)
    requires id in pooled ==> GoodPool(e, pooled[id], Pledged(contributions', id))
    requires forall j: nat :: j != id ==> Pledged(contributions', j) == Pledged(contributions, j)
    ensures Pools(escrows[id := e], pooled, contributions')
  {
  }

  lemma PoolsInsert(escrows: Escrows, pooled: map<nat, Pool>, contributions: Contributions, id: nat, e: Escrow, pool: Pool)
    requires Pools(escrows, pooled, contributions)
    requires GoodPool(e, pool, 0)
    requires forall k :: k in contributions ==> k.0 != id
    ensures Pools(escrows[id := e], pooled[id := pool], contributions)
  {
    PledgedFresh(contributions, id);
  }

  lemma ContributorsPut(escrows: Escrows, pooled: map<nat, Pool>, contributions: Contributions, now: nat, id: nat, e: Escrow)
    requires Contributors(escrows, pooled, contributions, now) && id in escrows
    requires id in pooled ==>
               forall k :: k in contributions && k.0 == id && contributions[k].refunded ==>
                 GoodContribution(contributions[k], k.1, e, pooled[id], now)
    ensures Contributors(escrows[id := e], pooled, contributions, now)
  {
  }

  lemma ContributorsAdd(escrows: Escrows, pooled: map<nat, Pool>, contributions: Contributions, now: nat, k: (nat, Address), c: Contribution)
    requires Contributors(escrows, pooled, contributions, now)
    requires k.0 in pooled && k.0 in escrows && GoodContribution(c, k.1, escrows[k.0], pooled[k.0], now)
    ensures Contributors(escrows, pooled, contributions[k := c], now)
  {
  }

  lemma ContributorsInsert(escrows: Escrows, pooled: map<nat, Pool>, contributions: Contributions, now: nat, id: nat, e: Escrow, pool: Pool)
    requires Contributors(escrows, pooled, contributions, now)
    requires forall k :: k in contributions ==> k.0 != id
    ensures Contributors(escrows[id := e], pooled, contributions, now)
    ensures Contributors(escrows[id := e], pooled[id := pool], contributions, now)
  {
  }

  /** One record changes what is owed by `delta`, and the counter follows; the holdings cover it. */
  lemma BooksPut(escrows: Escrows, liability: map<Address, int>, balances: Balances,
                 id: nat, e: Escrow, delta: int, balances': Balances)
    requires Books(escrows, liability, balances)
    requires id in escrows ==> escrows[id].token == e.token
    requires delta == (if e.status == Funded then e.amount else 0)
                    - (if id in escrows && escrows[id].status == Funded then escrows[id].amount else 0)
    requires forall t: Address :: t != e.token ==> Balance(balances', t, Contract) == Balance(balances, t, Contract)
    requires Balance(balances', e.token, Contract) >= Balance(balances, e.token, Contract) + delta
    ensures Books(escrows[id := e], Credit(liability, e.token, delta), balances')
    ensures delta == 0 ==> Books(escrows[id := e], liability, balances')
  {
    OwedAfterPut(escrows, id, e);
    var escrows' := escrows[id := e];
    forall t: Address
      ensures Owing(Credit(liability, e.token, delta), t) == Owed(escrows', t)
      ensures Balance(balances', t, Contract) >= Owed(escrows', t)
      ensures delta == 0 ==> Owing(liability, t) == Owed(escrows', t)
    {
      assert Owing(liability, t) == Owed(escrows, t);
    }
  }

  lemma InboundTransfer(b: Balances, token: Address, from: Address, amount: int)
    requires HonestTokens(b) && from != Contract && 0 <= amount <= Balance(b, token, from)
    ensures var b' := Transfer(b, token, from, Contract, amount);
            && HonestTokens(b')
            && Balance(b', token, Contract) == Balance(b, token, Contract) + amount
            && (forall t: Address :: t != token ==> Balance(b', t, Contract) == Balance(b, t, Contract))
  {
    TransferKeepsHonest(b, token, from, Contract, amount);
  }

  // ---- what the invariant says about one record --------------------------

  lemma RecordFacts(s: State, id: nat)
    requires Inv(s) && id in s.escrows
    ensures GoodRecord(s.escrows[id], id in s.pooled)
    ensures id in s.pooled ==> GoodPool(s.escrows[id], s.pooled[id], Pledged(s.contributions, id))
    ensures s.status.Keys == s.escrows.Keys && s.status[id] == s.escrows[id].status && id < s.nextId
  {
  }

  lemma ContributionFacts(s: State, k: (nat, Address))
    requires Inv(s) && k in s.contributions
    ensures k.0 in s.pooled && k.0 in s.escrows
    ensures GoodContribution(s.contributions[k], k.1, s.escrows[k.0], s.pooled[k.0], s.now)
  {
  }

  lemma FreshId(s: State)
    requires Inv(s)
    ensures s.nextId !in s.escrows && s.nextId !in s.pooled
    ensures forall k :: k in s.contributions ==> k.0 != s.nextId
  {
  }

  // ---- the invariant, move by move ---------------------------------------

  lemma OpenKeepsInv(s: State, signers: set<Address>, e: Escrow)
    requires Inv(s) && MayOpen(s, e, signers)
    ensures Inv(Opened(s, e))
  {
    assert GoodRecord(e, false);
    hide Shape, Records, Pools, Contributors, Books, HonestTokens, Balance, Transfer, WellFormed, Credit;
    FreshId(s);
    InboundTransfer(s.balances, e.token, e.payer, e.amount);
    ShapeInsert(s.escrows, s.status, s.pooled, s.contributions, s.nextId, e, Pool(0, 0));
    RecordsPut(s.escrows, s.pooled, s.nextId, e, Pool(0, 0));
    PoolsPut(s.escrows, s.pooled, s.contributions, s.nextId, e, s.contributions);
    ContributorsInsert(s.escrows, s.pooled, s.contributions, s.now, s.nextId, e, Pool(0, 0));
    BooksPut(s.escrows, s.liability, s.balances, s.nextId, e, e.amount, Opened(s, e).balances);
  }

  lemma OpenPoolKeepsInv(s: State, signers: set<Address>, e: Escrow, pool: Pool)
    requires Inv(s) && MayOpenPool(s, e, pool, signers)
    ensures Inv(PoolOpened(s, e, pool))
  {
    hide Shape, Records, Pools, Contributors, Books, HonestTokens, Balance, WellFormed, Credit;
    FreshId(s);
    ShapeInsert(s.escrows, s.status, s.pooled, s.contributions, s.nextId, e, pool);
    RecordsPut(s.escrows, s.pooled, s.nextId, e, pool);
    PoolsInsert(s.escrows, s.pooled, s.contributions, s.nextId, e, pool);
    ContributorsInsert(s.escrows, s.pooled, s.contributions, s.now, s.nextId, e, pool);
    BooksPut(s.escrows, s.liability, s.balances, s.nextId, e, 0, s.balances);
  }

  lemma GrownRecord(e: Escrow, amount: int, pooled: bool)
    requires GoodRecord(e, pooled) && amount > 0 && InI128(e.amount + amount)
    requires e.feeBps.Some? ==> InI128((e.amount + amount) * e.feeBps.value)
    ensures GoodRecord(e.(amount := e.amount + amount), pooled)
  {
  }

  lemma TopUpKeepsInv(s: State, signers: set<Address>, id: nat, amount: int)
    requires Inv(s) && MayTopUp(s, id, amount, signers)
    ensures Inv(ToppedUp(s, id, amount))
  {
    hide Shape, Records, Pools, Contributors, Books, HonestTokens, Balance, Transfer, WellFormed, Credit, GoodRecord;
    var e := s.escrows[id];
    var e' := e.(amount := e.amount + amount);
    RecordFacts(s, id);
    GrownRecord(e, amount, false);
    InboundTransfer(s.balances, e.token, e.payer, amount);
    ShapePut(s.escrows, s.status, s.pooled, s.contributions, s.contributions, s.nextId, id, e');
    RecordsPut(s.escrows, s.pooled, id, e', Pool(0, 0));
    PoolsPut(s.escrows, s.pooled, s.contributions, id, e', s.contributions);
    ContributorsPut(s.escrows, s.pooled, s.contributions, s.now, id, e');
    BooksPut(s.escrows, s.liability, s.balances, id, e', amount, ToppedUp(s, id, amount).balances);
  }

  /** While a pool still takes money none of its records is refunded. */
  lemma NoneRefundedYet(s: State, id: nat)
    requires Inv(s) && id in s.escrows && id in s.pooled
    requires s.now < s.pooled[id].deadline || s.escrows[id].amount >= s.pooled[id].target
    ensures forall k :: k in s.contributions && k.0 == id ==> !s.contributions[k].refunded
  {
  }

  lemma ContributePledges(s: State, id: nat, who: Address, amount: int)
    requires Inv(s) && id in s.escrows && id in s.pooled && s.now < s.pooled[id].deadline
    ensures var c, k := RecordOf(s, id, who), (id, who);
            var contributions' := s.contributions[k := c.(amount := c.amount + amount)];
            && !c.refunded && c.amount >= 0
            && Pledged(contributions', id) == Pledged(s.contributions, id) + amount
            && (forall j: nat :: j != id ==> Pledged(contributions', j) == Pledged(s.contributions, j))
  {
    var c, k := RecordOf(s, id, who), (id, who);
    var c' := c.(amount := c.amount + amount);
    NoneRefundedYet(s, id);
    if k in s.contributions { ContributionFacts(s, k); }
    PledgedElsewhere(s.contributions, k, c');
    PledgedUpdate(s.contributions, k, c', id);
  }

  lemma ContributeKeepsInv(s: State, signers: set<Address>, id: nat, who: Address, amount: int)
    requires Inv(s) && MayContribute(s, id, who, amount, signers)
    ensures Inv(Contributed(s, id, who, amount))
  {
    hide Shape, Records, Pools, Contributors, Books, HonestTokens, Balance, Transfer, WellFormed, Credit, GoodRecord;
    var e, c, k := s.escrows[id], RecordOf(s, id, who), (id, who);
    var e', c' := e.(amount := e.amount + amount), c.(amount := c.amount + amount);
    var contributions' := s.contributions[k := c'];
    RecordFacts(s, id);
    NoneRefundedYet(s, id);
    ContributePledges(s, id, who, amount);
    PoolRecordRange(s, id);
    GrownRecord(e, amount, true);
    InboundTransfer(s.balances, e.token, who, amount);
    ShapePut(s.escrows, s.status, s.pooled, s.contributions, contributions', s.nextId, id, e');
    RecordsPut(s.escrows, s.pooled, id, e', Pool(0, 0));
    PoolsPut(s.escrows, s.pooled, s.contributions, id, e', contributions');
    ContributorsPut(s.escrows, s.pooled, s.contributions, s.now, id, e');
    ContributorsAdd(s.escrows[id := e'], s.pooled, s.contributions, s.now, k, c');
    BooksPut(s.escrows, s.liability, s.balances, id, e', amount, Contributed(s, id, who, amount).balances);
  }

  lemma PoolRecordRange(s: State, id: nat)
    requires Inv(s) && id in s.escrows && id in s.pooled
    ensures 0 <= s.escrows[id].amount <= I128_MAX && 0 < s.pooled[id].target <= I128_MAX
  {
    RecordFacts(s, id);
  }

  lemma ClaimPledges(s: State, id: nat, who: Address)
    requires Inv(s) && (id, who) in s.contributions && !s.contributions[(id, who)].refunded
    ensures var c, k := s.contributions[(id, who)], (id, who);
            var contributions' := s.contributions[k := c.(refunded := true)];
            && 0 < c.amount <= Pledged(s.contributions, id)
            && Pledged(contributions', id) == Pledged(s.contributions, id) - c.amount
            && (forall j: nat :: j != id ==> Pledged(contributions', j) == Pledged(s.contributions, j))
  {
    var c, k := s.contributions[(id, who)], (id, who);
    forall j | j in s.contributions ensures s.contributions[j].amount > 0 {
      ContributionFacts(s, j);
    }
    PledgeWithin(s.contributions, k);
    PledgedElsewhere(s.contributions, k, c.(refunded := true));
    PledgedUpdate(s.contributions, k, c.(refunded := true), id);
  }

  lemma ClaimFacts(s: State, signers: set<Address>, id: nat, who: Address)
    requires Inv(s) && MayClaim(s, id, who, signers)
    ensures var e, c, pool := s.escrows[id], s.contributions[(id, who)], s.pooled[id];
            var e' := e.(amount := e.amount - c.amount);
            && 0 < c.amount <= e.amount == Pledged(s.contributions, id)
            && e.amount <= Liability(s, e.token) <= Balance(s.balances, e.token, Contract)
            && GoodRecord(e', true)
            && GoodPool(e', pool, e'.amount)
            && (forall k :: k in s.contributions && k.0 == id ==>
                  GoodContribution(s.contributions[k].(refunded := true), k.1, e', pool, s.now))
  {
    RecordFacts(s, id);
    ClaimPledges(s, id, who);
    AmountWithinLiability(s, id);
    forall k | k in s.contributions && k.0 == id ensures s.contributions[k].amount > 0 && k.1 != Contract {
      ContributionFacts(s, k);
    }
  }

  /** Storage between a claim's writes and its token call already meets the invariant. */
  lemma MarkedClaimedKeepsInv(s: State, signers: set<Address>, id: nat, who: Address)
    requires Inv(s) && MayClaim(s, id, who, signers)
    ensures Inv(MarkedClaimed(s, id, who))
    ensures var e, c := s.escrows[id], s.contributions[(id, who)];
            0 < c.amount <= e.amount <= Liability(s, e.token) <= Balance(s.balances, e.token, Contract)
  {
    hide Shape, Records, Pools, Contributors, Books, HonestTokens, Balance, WellFormed, Credit, GoodRecord, GoodPool;
    var e, c, k := s.escrows[id], s.contributions[(id, who)], (id, who);
    var e', c' := e.(amount := e.amount - c.amount), c.(refunded := true);
    var contributions' := s.contributions[k := c'];
    ClaimFacts(s, signers, id, who);
    ClaimPledges(s, id, who);
    assert forall j :: j in s.contributions && s.contributions[j].refunded ==>
             s.contributions[j].(refunded := true) == s.contributions[j];
    ShapePut(s.escrows, s.status, s.pooled, s.contributions, contributions', s.nextId, id, e');
    RecordsPut(s.escrows, s.pooled, id, e', Pool(0, 0));
    PoolsPut(s.escrows, s.pooled, s.contributions, id, e', contributions');
    ContributorsPut(s.escrows, s.pooled, s.contributions, s.now, id, e');
    ContributorsAdd(s.escrows[id := e'], s.pooled, s.contributions, s.now, k, c');
    BooksPut(s.escrows, s.liability, s.balances, id, e', -c.amount, s.balances);
  }

  /** Paying `amount` out keeps the books when the counter has already given it up. */
  lemma BooksAfterPayment(escrows: Escrows, liability: map<Address, int>, balances: Balances, balances': Balances, token: Address, amount: int)
    requires Books(escrows, Credit(liability, token, -amount), balances)
    requires Owing(liability, token) <= Balance(balances, token, Contract)
    requires Balance(balances', token, Contract) >= Balance(balances, token, Contract) - amount
    requires forall t: Address :: t != token ==> Balance(balances', t, Contract) == Balance(balances, t, Contract)
    ensures Books(escrows, Credit(liability, token, -amount), balances')
  {
  }

  lemma OutboundTransfer(b: Balances, token: Address, to: Address, amount: int)
    requires HonestTokens(b) && 0 <= amount <= Balance(b, token, Contract)
    ensures var b' := Transfer(b, token, Contract, to, amount);
            && HonestTokens(b')
            && Balance(b', token, Contract) >= Balance(b, token, Contract) - amount
            && (forall t: Address :: t != token ==> Balance(b', t, Contract) == Balance(b, t, Contract))
  {
    TransferKeepsHonest(b, token, Contract, to, amount);
  }

  lemma ClaimKeepsInv(s: State, signers: set<Address>, id: nat, who: Address)
    requires Inv(s) && MayClaim(s, id, who, signers)
    ensures Inv(Claimed(s, id, who))
  {
    hide Shape, Records, Pools, Contributors, Books, HonestTokens, Balance, Transfer, Credit;
    var e, c := s.escrows[id], s.contributions[(id, who)];
    MarkedClaimedKeepsInv(s, signers, id, who);
    OutboundTransfer(s.balances, e.token, who, c.amount);
    BooksAfterPayment(Claimed(s, id, who).escrows, s.liability, s.balances, Claimed(s, id, who).balances, e.token, c.amount);
  }

  lemma ClosedRecord(s: State, signers: set<Address>, id: nat, settled: Status)
    requires Inv(s) && id in s.escrows && MaySettle(s, id, settled, signers)
    ensures var e' := s.escrows[id].(status := settled);
            && settled != Funded
            && GoodRecord(e', id in s.pooled)
            && (id in s.pooled ==> GoodPool(e', s.pooled[id], Pledged(s.contributions, id)))
    ensures 0 < s.escrows[id].amount
    ensures id in s.pooled ==> forall k :: k in s.contributions && k.0 == id ==> !s.contributions[k].refunded
  {
    RecordFacts(s, id);
    if id in s.pooled { NoneRefundedYet(s, id); }
  }

  /** Storage between a settlement's writes and its first outbound call already meets the invariant. */
  lemma ClosedKeepsInv(s: State, signers: set<Address>, id: nat, settled: Status)
    requires Inv(s) && id in s.escrows && MaySettle(s, id, settled, signers)
    ensures Inv(Closed(s, id, settled))
    ensures 0 < s.escrows[id].amount <= Liability(s, s.escrows[id].token) <= Balance(s.balances, s.escrows[id].token, Contract)
  {
    hide Shape, Records, Pools, Contributors, Books, HonestTokens, Balance, WellFormed, Credit, GoodRecord, GoodPool;
    var e := s.escrows[id];
    var e' := e.(status := settled);
    ClosedRecord(s, signers, id, settled);
    AmountWithinLiability(s, id);
    ShapePut(s.escrows, s.status, s.pooled, s.contributions, s.contributions, s.nextId, id, e');
    RecordsPut(s.escrows, s.pooled, id, e', Pool(0, 0));
    PoolsPut(s.escrows, s.pooled, s.contributions, id, e', s.contributions);
    ContributorsPut(s.escrows, s.pooled, s.contributions, s.now, id, e');
    BooksPut(s.escrows, s.liability, s.balances, id, e', -e.amount, s.balances);
  }

  lemma PayOutOf(s: State, id: nat, settled: Status)
    requires Inv(s) && id in s.escrows && s.escrows[id].status == Funded
    ensures var e := s.escrows[id];
            && HonestTokens(PayOut(s.balances, e, settled))
            && Balance(PayOut(s.balances, e, settled), e.token, Contract) >= Balance(s.balances, e.token, Contract) - e.amount
            && (Destination(e, settled) != Contract ==>
                  Balance(PayOut(s.balances, e, settled), e.token, Contract) == Balance(s.balances, e.token, Contract) - e.amount)
            && (forall t: Address :: t != e.token ==>
                  Balance(PayOut(s.balances, e, settled), t, Contract) == Balance(s.balances, t, Contract))
  {
    RecordFacts(s, id);
    AmountWithinLiability(s, id);
    FeeBound(s.escrows[id], settled);
    PayOutBound(s.balances, s.escrows[id], settled);
  }

  lemma SettleKeepsInv(s: State, signers: set<Address>, id: nat, settled: Status, byPayee: bool)
    requires Inv(s) && id in s.escrows && MaySettle(s, id, settled, signers)
    ensures Inv(Settled(s, id, settled, byPayee))
  {
    hide Shape, Records, Pools, Contributors, Books, HonestTokens, Balance, Transfer, Credit, PayOut;
    var e := s.escrows[id];
    ClosedKeepsInv(s, signers, id, settled);
    PayOutOf(s, id, settled);
    BooksAfterPayment(Closed(s, id, settled).escrows, s.liability, s.balances, PayOut(s.balances, e, settled), e.token, e.amount);
  }

  ghost predicate EditOf(e: Escrow, e': Escrow) {
    && e' == e.(payee := e'.payee, releasers := e'.releasers, acceptedAt := e'.acceptedAt)
    && e'.threshold <= |e'.releasers| <= MAX_RELEASERS && !HasDuplicates(e'.releasers)
    && (|e.releasers| == 1 ==> |e'.releasers| == 1)
    && (e'.acceptedAt.Some? ==> e'.requiresAcceptance && e'.payee != Contract)
  }

  lemma EditedRecord(e: Escrow, e': Escrow, pooled: bool, pool: Pool, pledged: int)
    requires GoodRecord(e, pooled) && EditOf(e, e')
    ensures GoodRecord(e', pooled)
    ensures GoodPool(e, pool, pledged) ==> GoodPool(e', pool, pledged)
  {
  }

  /** Edits of the parties of a record leave amount, token and status alone. */
  lemma EditKeepsInv(s: State, id: nat, e': Escrow, event: Event)
    requires Inv(s) && id in s.escrows && EditOf(s.escrows[id], e')
    ensures Inv(Edited(s, id, e', event))
  {
    hide Shape, Records, Pools, Contributors, Books, HonestTokens, Balance, WellFormed, Credit, GoodRecord, GoodPool;
    var e := s.escrows[id];
    RecordFacts(s, id);
    EditedRecord(e, e', id in s.pooled, if id in s.pooled then s.pooled[id] else Pool(0, 0), Pledged(s.contributions, id));
    ContributorsEdit(s, id, e');
    ShapePut(s.escrows, s.status, s.pooled, s.contributions, s.contributions, s.nextId, id, e');
    RecordsPut(s.escrows, s.pooled, id, e', Pool(0, 0));
    PoolsPut(s.escrows, s.pooled, s.contributions, id, e', s.contributions);
    BooksPut(s.escrows, s.liability, s.balances, id, e', 0, s.balances);
  }

  lemma ContributorsEdit(s: State, id: nat, e': Escrow)
    requires Inv(s) && id in s.escrows && EditOf(s.escrows[id], e')
    ensures Contributors(s.escrows[id := e'], s.pooled, s.contributions, s.now)
  {
    ContributorsPut(s.escrows, s.pooled, s.contributions, s.now, id, e');
  }

  lemma AcceptKeepsInv(s: State, signers: set<Address>, id: nat)
    requires Inv(s) && MayAccept(s, id, signers)
    ensures Inv(Accepted(s, id))
  {
    RecordFacts(s, id);
    var e := s.escrows[id];
    hide Inv;
    EditKeepsInv(s, id, e.(acceptedAt := Some(s.now)), AcceptedEvent(id, e.payee, s.now));
  }

  lemma RotateKeepsInv(s: State, signers: set<Address>, id: nat, releaser: Address)
    requires Inv(s) && MayRotate(s, id, releaser, signers)
    ensures Inv(Rotated(s, id, releaser))
  {
    RecordFacts(s, id);
    var e := s.escrows[id];
    hide Inv;
    EditKeepsInv(s, id, e.(releasers := [releaser]), RotatedEvent(id, e.releasers[0], releaser));
  }

  lemma RedirectKeepsInv(s: State, signers: set<Address>, id: nat, payee: Address)
    requires Inv(s) && MayRedirect(s, id, payee, signers)
    ensures Inv(Redirected(s, id, payee))
  {
    RecordFacts(s, id);
    var e := s.escrows[id];
    hide Inv;
    EditKeepsInv(s, id, e.(payee := payee), PayeeMovedEvent(id, e.payee, payee));
  }

  /** Solvency and every other clause survive each permitted move. */
  lemma MoveKeepsInv(s: State, signers: set<Address>, m: Move)
    requires Inv(s) && Permitted(s, signers, m)
    ensures Fits(s, m) && Inv(After(s, m))
  {
    hide Shape, Records, Pools, Contributors, Books, HonestTokens;
    match m
    case Open(e) => OpenKeepsInv(s, signers, e);
    case OpenPool(e, pool) => OpenPoolKeepsInv(s, signers, e, pool);
    case TopUp(id, amount) => TopUpKeepsInv(s, signers, id, amount);
    case Contribute(id, who, amount) => ContributeKeepsInv(s, signers, id, who, amount);
    case Claim(id, who) => ClaimKeepsInv(s, signers, id, who);
    case Accept(id) => AcceptKeepsInv(s, signers, id);
    case Rotate(id, releaser) => RotateKeepsInv(s, signers, id, releaser);
    case Redirect(id, payee) => RedirectKeepsInv(s, signers, id, payee);
    case Settle(id, settled, byPayee) => SettleKeepsInv(s, signers, id, settled, byPayee);
    case SetPaused(_) =>
  }

  ghost function Surplus(s: State, token: Address): int {
    Balance(s.balances, token, Contract) - Liability(s, token)
  }

  lemma SettleSurplus(s: State, id: nat, settled: Status, byPayee: bool, token: Address)
    requires Inv(s) && id in s.escrows && s.escrows[id].status == Funded
    requires settled == Refunded || settled == Cancelled ==> id !in s.pooled
    ensures Surplus(Settled(s, id, settled, byPayee), token) >= Surplus(s, token)
    ensures Surplus(Settled(s, id, settled, byPayee), token) > Surplus(s, token) ==>
              Destination(s.escrows[id], settled) == Contract && s.escrows[id].token == token
  {
    hide Inv, PayOut, WellFormed;
    RecordFacts(s, id);
    PayOutOf(s, id, settled);
  }

  /** A transfer between the contract and another holder, matched by the counter. */
  lemma MatchedTransfer(b: Balances, l: map<Address, int>, token: Address, who: Address, amount: int, t: Address)
    requires who != Contract
    ensures Balance(Transfer(b, token, who, Contract, amount), t, Contract) - Owing(Credit(l, token, amount), t)
         == Balance(b, t, Contract) - Owing(l, t)
    ensures Balance(Transfer(b, token, Contract, who, amount), t, Contract) - Owing(Credit(l, token, -amount), t)
         == Balance(b, t, Contract) - Owing(l, t)
  {
  }

  /** Deposits, claims and edits move holdings and counter together. */
  lemma OtherSurplus(s: State, signers: set<Address>, m: Move, token: Address)
    requires Inv(s) && Permitted(s, signers, m) && !m.Settle?
    ensures Fits(s, m) && Surplus(After(s, m), token) == Surplus(s, token)
  {
    hide Inv, QuorumSigned, WellFormed, TokenAllowed, PlainTerms, Transfer, Credit, Owing, Balance;
    match m
    case Open(e) => MatchedTransfer(s.balances, s.liability, e.token, e.payer, e.amount, token);
    case TopUp(id, amount) =>
      MatchedTransfer(s.balances, s.liability, s.escrows[id].token, s.escrows[id].payer, amount, token);
    case Contribute(id, who, amount) => MatchedTransfer(s.balances, s.liability, s.escrows[id].token, who, amount, token);
    case Claim(id, who) =>
      MatchedTransfer(s.balances, s.liability, s.escrows[id].token, who, s.contributions[(id, who)].amount, token);
    case _ =>
  }

  /** A token's surplus never shrinks, and grows only when a release pays the contract itself. */
  lemma MoveKeepsSurplus(s: State, signers: set<Address>, m: Move, token: Address)
    requires Inv(s) && Permitted(s, signers, m)
    ensures Fits(s, m) && Surplus(After(s, m), token) >= Surplus(s, token)
    ensures Surplus(After(s, m), token) > Surplus(s, token) ==>
              m.Settle? && m.settled == Released && s.escrows[m.id].payee == Contract && s.escrows[m.id].token == token
  {
    if !m.Settle? {
      OtherSurplus(s, signers, m, token);
    } else {
      MaySettleFacts(s, signers, m.id, m.settled);
      RecordFacts(s, m.id);
      SettleSurplus(s, m.id, m.settled, m.byPayee, token);
    }
    hide Inv, PayOut, WellFormed, Surplus, MaySettle, Settled;
  }

  lemma MaySettleFacts(s: State, signers: set<Address>, id: nat, settled: Status)
    requires id in s.escrows && MaySettle(s, id, settled, signers)
    ensures s.escrows[id].status == Funded && settled != Funded
    ensures settled == Refunded || settled == Cancelled ==> id !in s.pooled
  {
  }
}
