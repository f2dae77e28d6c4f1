// The contract as it runs: stored fields, writes in order, calls out to
// tokens and payees, and the host's rollback of a failed invocation.
//
// Every call out requires that storage and ledgers already satisfy the whole
// invariant and that the payment in progress can no longer be repeated.
module EscrowContract {
  import opened Prelude
  import opened EscrowTypes
  import opened EscrowRules
  import opened EscrowMoves
  import opened EscrowSafety
  import opened EscrowRuns
  import opened EscrowTraces
  import opened EscrowCalls

  /** What a payment in progress has used up: an escrow, or one contributor's claim. */
  datatype Payment = OfEscrow(id: nat) | OfClaim(id: nat, who: Address)

  ghost predicate Spent(s: State, p: Payment) {
    match p
    case OfEscrow(id) => id in s.escrows && s.escrows[id].status != Funded
    case OfClaim(id, who) => (id, who) in s.contributions && s.contributions[(id, who)].refunded
  }

  predicate Pays(call: Call, p: Payment) {
    match p
    case OfEscrow(id) =>
      (call.Release? || call.ReleaseWithApprovals? || call.Refund? || call.RefundWithApprovals?
       || call.CancelEscrow? || call.ClaimRefund?) && call.id == id
    case OfClaim(id, who) => call == ClaimRefund(id, who)
  }

  /**
   * A call made while a payment is under way that would make the same payment
   * again fails, whoever signs it; the same holds inside a batch.
   */
  lemma NestedPaymentRejected(s: State, p: Payment, signers: set<Address>, call: Call, f: Faults)
    requires Spent(s, p) && Pays(call, p)
    ensures !Rule(s, signers, call, f).Ok?
    ensures p.OfEscrow? ==> forall caller, action :: !SettleOneRule(s, p.id, caller, action, f).Ok?
  {
    hide Deliver, Fee, FeeShare, CanSign;
  }

  // ---- what the invariant gives at each call out -------------------------

  /** Between the fee transfer and the payout transfer, and after both, the invariant holds. */
  lemma PaidStatesKeepInv(s: State, signers: set<Address>, id: nat, settled: Status)
    requires Inv(s) && id in s.escrows && MaySettle(s, id, settled, signers)
    ensures var e, w := s.escrows[id], Closed(s, id, settled);
            && 0 <= Fee(e, settled) <= e.amount
            && (settled != Released ==> Fee(e, settled) == 0)
            && Inv(w) && Inv(w.(balances := PayFee(s.balances, e, settled))) && Inv(w.(balances := PayOut(s.balances, e, settled)))
  {
    hide Shape, Records, Pools, Contributors, Books, HonestTokens, Balance, Transfer, Credit, PayOut, WellFormed;
    var e := s.escrows[id];
    RecordFacts(s, id);
    FeeBound(e, settled);
    ClosedKeepsInv(s, signers, id, settled);
    SettleKeepsInv(s, signers, id, settled, false);
    if Fee(e, settled) > 0 && e.feeRecipient.Some? {
      OutboundTransfer(s.balances, e.token, e.feeRecipient.value, Fee(e, settled));
      FeeLeavesCover(s.balances, e, settled, e.token);
      BooksAfterPayment(Closed(s, id, settled).escrows, s.liability, s.balances, PayFee(s.balances, e, settled), e.token, e.amount);
    }
  }

  lemma FeeLeavesCover(b: Balances, e: Escrow, settled: Status, token: Address)
    requires 0 < Fee(e, settled) <= e.amount && e.feeRecipient.Some?
    ensures Balance(PayFee(b, e, settled), e.token, Contract) >= Balance(b, e.token, Contract) - e.amount
  {
  }

  /** The result and the new storage are those the rule prescribes. */
  ghost predicate Completes(s: State, rule: Outcome<Move>, r: Outcome<()>, t: State) {
    match rule
    case Ok(m) => r == Ok(()) && Fits(s, m) && t == After(s, m)
    case Err(error) => r == Err(error)
    case Trap => r == Trap
  }

  /** As `Completes`, and a failed invocation leaves no trace. */
  ghost predicate CompletesOrRollsBack(s: State, rule: Outcome<Move>, r: Outcome<()>, t: State) {
    Completes(s, rule, r, t) && (!r.Ok? ==> t == s)
  }

  function Unit<T>(r: Outcome<T>): Outcome<()> {
    match r
    case Ok(_) => Ok(())
    case Err(error) => Err(error)
    case Trap => Trap
  }

  /** `contains` over a host vector. */
  method Contains(list: seq<Address>, candidate: Address) returns (found: bool)
    ensures found <==> candidate in list
  {
    for i := 0 to |list|
      invariant candidate !in list[..i]
    {
      if list[i] == candidate { return true; }
    }
    return false;
  }

  method ValidateReleaserSet(releasers: seq<Address>, threshold: nat) returns (r: Outcome<()>)
    ensures r == CheckReleaserSet(releasers, threshold)
  {
    if |releasers| > MAX_RELEASERS { return Err(TooManyReleasers); }
    if threshold == 0 || threshold > |releasers| { return Err(InvalidThreshold); }
    var seen: seq<Address> := [];
    for i := 0 to |releasers|
      invariant seen == releasers[..i] && !HasDuplicates(seen)
    {
      var found := Contains(seen, releasers[i]);
      if found { return Err(DuplicateReleaser); }
      seen := seen + [releasers[i]];
    }
    assert seen == releasers;
    return Ok(());
  }

  method ValidateApprovals(e: Escrow, approvers: seq<Address>, signers: set<Address>) returns (r: Outcome<()>)
    ensures r == CheckApprovals(e, approvers, signers)
  {
    if |approvers| < e.threshold { return Err(ThresholdNotMet); }
    var seen: seq<Address> := [];
    for i := 0 to |approvers|
      invariant seen == approvers[..i] && ScanApprovals(e, seen, signers) == Ok(())
    {
      assert approvers[..i + 1][..i] == approvers[..i];
      if approvers[i] !in e.releasers {
        ScanFailure(e, approvers, signers, i + 1);
        return Err(Unauthorized);
      }
      var found := Contains(seen, approvers[i]);
      if found {
        ScanFailure(e, approvers, signers, i + 1);
        return Err(DuplicateApprover);
      }
      seen := seen + [approvers[i]];
      if !CanSign(signers, approvers[i]) {
        ScanFailure(e, approvers, signers, i + 1);
        return Trap;
      }
    }
    assert seen == approvers;
    return Ok(());
  }

  lemma {:induction false} CreateFailure(s: State, signers: set<Address>, payer: Address, items: seq<Item>, faults: seq<Faults>, n: nat)
    requires n <= |items| && CreateAll(s, signers, payer, items[..n], faults).IsFailure()
    ensures CreateAll(s, signers, payer, items, faults) == CreateAll(s, signers, payer, items[..n], faults)
  {
    hide CreateRule, AfterAll;
    if n == |items| {
      assert items[..n] == items;
    } else {
      var before := items[..|items| - 1];
      assert before[..n] == items[..n];
      CreateFailure(s, signers, payer, before, faults, n);
    }
  }

  lemma {:induction false} SettleFailure(s: State, caller: Address, ops: seq<(nat, SettleAction)>, faults: seq<Faults>, n: nat)
    requires n <= |ops| && SettleAll(s, caller, ops[..n], faults).IsFailure()
    ensures SettleAll(s, caller, ops, faults) == SettleAll(s, caller, ops[..n], faults)
  {
    hide SettleOneRule, AfterAll;
    if n == |ops| {
      assert ops[..n] == ops;
    } else {
      var before := ops[..|ops| - 1];
      assert before[..n] == ops[..n];
      SettleFailure(s, caller, before, faults, n);
    }
  }

  lemma CreateFollows(s: State, signers: set<Address>, p: CreateParams, f: Faults)
    requires Inv(s) && CanSign(signers, p.payer) && CreateRule(s, signers, p, true, f).Ok?
    ensures CreateRule(s, signers, p, true, f) == Ok(Open(NewEscrow(p)))
    ensures Fits(s, Open(NewEscrow(p))) && Inv(After(s, Open(NewEscrow(p))))
    ensures Next(s, Open(NewEscrow(p))) == After(s, Open(NewEscrow(p)))
    ensures After(s, Open(NewEscrow(p))).nextId == s.nextId + 1
  {
    CreatePermits(s, signers, p, true, f);
    hide CreateRule, MayOpen, Inv;
    OpenKeepsInv(s, signers, NewEscrow(p));
  }

  lemma SettleFollows(s: State, signers: set<Address>, id: nat, caller: Address, action: SettleAction, f: Faults)
    requires Inv(s) && CanSign(signers, caller) && SettleOneRule(s, id, caller, action, f).Ok?
    ensures var m := SettleOneRule(s, id, caller, action, f).value;
            Fits(s, m) && Inv(After(s, m)) && Next(s, m) == After(s, m)
  {
    hide Inv, SettleOneRule, Permitted, After;
    SettleOnePermits(s, signers, id, caller, action, f);
    MoveKeepsInv(s, signers, SettleOneRule(s, id, caller, action, f).value);
  }

  lemma TakeKeepsInv(s: State, step: Step)
    requires Inv(s)
    ensures Inv(Take(s, step))
  {
    hide Inv, Take;
    InvOverRuns(s, [step]);
    assert [step][..0] == [];
    assert Run(s, []) == s;
  }

  /** The first failing approver decides, however many follow. */
  lemma {:induction false} ScanFailure(e: Escrow, approvers: seq<Address>, signers: set<Address>, n: nat)
    requires n <= |approvers| && ScanApprovals(e, approvers[..n], signers).IsFailure()
    ensures ScanApprovals(e, approvers, signers) == ScanApprovals(e, approvers[..n], signers)
  {
    if n == |approvers| {
      assert approvers[..n] == approvers;
    } else {
      var before := approvers[..|approvers| - 1];
      assert before[..n] == approvers[..n];
      ScanFailure(e, before, signers, n);
    }
  }

  /** What completing as the rule prescribes means for the caller and for the ledger. */
  lemma Answered(s: State, signers: set<Address>, call: Call, f: Faults, r: Outcome<()>, t: State)
    requires Inv(s) && Completes(s, Rule(s, signers, call, f), r, t)
    ensures match r
            case Ok(_) => Inv(t) && Admissible(s, signers, call, f) && Did(s, call, t)
            case Err(error) => Explains(s, call, f, error)
            case Trap => Stopped(s, signers, call, f)
    ensures Admissible(s, signers, call, f) ==> r.Ok?
  {
    hide Inv, After, Fits, Permitted, Admissible, Did, Explains, Stopped, Rule;
    CallSucceeds(s, signers, call, f);
    AnswersAreTruthful(s, signers, call, f);
    if r.Ok? {
      CallDoes(s, signers, call, f);
      RulePermits(s, signers, call, f);
      MoveKeepsInv(s, signers, Rule(s, signers, call, f).value);
    }
  }

  class EscrowContract {
    const allowedTokens: seq<Address>
    const pauseAdmin: Address
    var escrows: Escrows
    var status: map<nat, Status>
    var pooled: map<nat, Pool>
    var contributions: Contributions
    var liability: map<Address, int>
    var nextId: nat
    var paused: bool
    // What the host keeps around the contract: token ledgers, published events, the clock.
    var balances: Balances
    var events: seq<Event>
    var now: nat

    function Storage(): State
      reads this
    {
      State(escrows, status, pooled, contributions, liability, nextId, paused,
            allowedTokens, pauseAdmin, balances, events, now)
    }

    ghost predicate Valid()
      reads this
    {
      Inv(Storage())
    }

    constructor (allowedTokens: seq<Address>, pauseAdmin: Address, balances: Balances, now: nat)
      requires HonestTokens(balances)
      ensures Deployed(Storage()) && Valid()
      ensures this.allowedTokens == allowedTokens && this.pauseAdmin == pauseAdmin && this.balances == balances && this.now == now
    {
      this.allowedTokens, this.pauseAdmin := allowedTokens, pauseAdmin;
      escrows, status, pooled, contributions, liability := map[], map[], map[], map[], map[];
      nextId, paused := 0, false;
      this.balances, events, this.now := balances, [], now;
      new;
      DeployedInv(Storage());
    }

    // ---- the host ----------------------------------------------------------

    method Restore(s: State)
      requires s.allowedTokens == allowedTokens && s.pauseAdmin == pauseAdmin
      modifies this
      ensures Storage() == s
    {
      escrows, status, pooled, contributions := s.escrows, s.status, s.pooled, s.contributions;
      liability, nextId, paused := s.liability, s.nextId, s.paused;
      balances, events, now := s.balances, s.events, s.now;
    }

    method AdvanceClock(to: nat)
      requires Valid() && to >= now
      modifies this`now
      ensures Valid() && Storage() == old(Storage()).(now := to)
    {
      AtomKeepsInv(Storage(), Clock(to));
      now := to;
    }

    // ---- calls out ---------------------------------------------------------

    /** A token moves `amount` from the contract to `to`, or reports failure and moves nothing. */
    method CallTransfer(ghost payment: Payment, token: Address, to: Address, amount: int, fails: bool) returns (ok: bool)
      requires Valid() && Spent(Storage(), payment)
      modifies this`balances
      ensures ok <==> !fails && old(Balance(balances, token, Contract)) >= amount
      ensures balances == if ok then Transfer(old(balances), token, Contract, to, amount) else old(balances)
    {
      ok := !fails && Balance(balances, token, Contract) >= amount;
      if ok { balances := Transfer(balances, token, Contract, to, amount); }
    }

    /** The payee's `on_escrow_released` hook. */
    method CallPayee(ghost payment: Payment, fails: bool) returns (ok: bool)
      requires Valid() && Spent(Storage(), payment)
      ensures ok <==> !fails
    {
      ok := !fails;
    }

    /** A token pulls `amount` from `from`; it may refuse, and may credit `skew` more than asked. */
    method CallInbound(token: Address, from: Address, amount: int, f: Faults) returns (ok: bool)
      requires Valid()
      modifies this`balances
      ensures ok <==> !f.inboundRefused && old(Balance(balances, token, from)) >= amount
      ensures ok ==> balances == Transfer(old(balances), token, from, Contract, amount)
                                 [(token, Contract) := Balance(Transfer(old(balances), token, from, Contract, amount), token, Contract) + f.skew]
    {
      ok := !f.inboundRefused && Balance(balances, token, from) >= amount;
      if ok {
        balances := Transfer(balances, token, from, Contract, amount);
        balances := balances[(token, Contract) := Balance(balances, token, Contract) + f.skew];
      }
    }

    // ---- internal steps ----------------------------------------------------

    method AddLiability(token: Address, amount: int) returns (r: Outcome<()>)
      modifies this`liability
      ensures r == Require(InI128(Owing(old(liability), token) + amount), Overflow)
      ensures r.Ok? ==> liability == Credit(old(liability), token, amount)
    {
      var updated :- CheckedAdd(Owing(liability, token), amount);
      liability := liability[token := updated];
      return Ok(());
    }

    method SubLiability(token: Address, amount: int) returns (r: Outcome<()>)
      modifies this`liability
      ensures var owed := Owing(old(liability), token) - amount;
              r == Require(InI128(owed) && owed >= 0, Overflow)
      ensures r.Ok? ==> liability == Credit(old(liability), token, -amount)
    {
      var updated :- CheckedAdd(Owing(liability, token), -amount);
      if updated < 0 { return Err(Overflow); }
      liability := liability[token := updated];
      return Ok(());
    }

    method TransferInExact(token: Address, payer: Address, amount: int, f: Faults) returns (r: Outcome<()>)
      requires Valid() && payer != Contract
      modifies this`balances, this`liability
      ensures r == TransferIn(old(Storage()), token, payer, amount, f)
      ensures r.Ok? ==>
                && balances == Transfer(old(balances), token, payer, Contract, amount)
                && liability == Credit(old(liability), token, amount)
    {
      var before := Balance(balances, token, Contract);
      var ok := CallInbound(token, payer, amount, f);
      if !ok { return Trap; }
      if Balance(balances, token, Contract) - before != amount { return Err(BalanceMismatch); }
      assert balances == Transfer(old(balances), token, payer, Contract, amount);
      r := AddLiability(token, amount);
    }

    method TakeId() returns (id: nat)
      modifies this`nextId
      ensures id == old(nextId) && nextId == id + 1
    {
      id := nextId;
      nextId := nextId + 1;
    }

    /** The outbound calls of a settlement, made over storage that is already written. */
    method Disburse(ghost s: State, id: nat, data: Escrow, settled: Status, fee: int, f: Faults) returns (r: Outcome<()>)
      requires id in s.escrows && data == s.escrows[id] && settled != Funded
      requires PaysAsDue(s.balances, PayOut(s.balances, data, settled), data, settled)
      requires fee == Fee(data, settled) && 0 <= fee && (fee > 0 ==> data.feeRecipient.Some?)
      requires Storage() == Closed(s, id, settled)
      requires Inv(Storage())
            && Inv(Storage().(balances := PayFee(balances, data, settled)))
            && Inv(Storage().(balances := PayOut(balances, data, settled)))
      modifies this`balances
      ensures r == Deliver(s, data, settled, f)
      ensures r.Ok? ==> balances == PayOut(s.balances, data, settled)
      ensures r.Ok? ==> PaysAsDue(s.balances, balances, data, settled)
    {
      hide Inv, FeeShare, Transfer, Fee, Balance, PaysAsDue;
      var failure := if settled == Released then Outcome<()>.Err(Undeliverable) else Outcome<()>.Trap;
      if fee > 0 {
        var paid := CallTransfer(OfEscrow(id), data.token, data.feeRecipient.value, fee, f.feeFails);
        if !paid { return failure; }
      }
      assert balances == PayFee(s.balances, data, settled);
      var delivered := CallTransfer(OfEscrow(id), data.token, Destination(data, settled), data.amount - fee, f.payoutFails);
      if !delivered { return failure; }
      assert balances == PayOut(s.balances, data, settled);
      if data.notifyPayee && settled == Released {
        var called := CallPayee(OfEscrow(id), f.callbackFails);
        if !called { return Err(CallbackFailed); }
      }
      return Ok(());
    }

    /** What a settlement rejects before it writes, and the fee it will take. */
    method CheckGates(data: Escrow, settled: Status) returns (r: Outcome<int>)
      ensures r == SettleFee(Storage(), data, settled)
    {
      if settled == Released {
        if data.releaseNotBefore.Some? && now < data.releaseNotBefore.value { return Err(ReleaseTooEarly); }
        if data.requiresAcceptance && data.acceptedAt.None? { return Err(AcceptanceRequired); }
        if data.feeRecipient.Some? && data.feeBps.Some? {
          r := FeeAmount(data.amount, data.feeBps.value);
          return;
        }
      }
      return Ok(0);
    }

    /** The three writes of a settlement, all made before any call out. */
    method WriteClosed(id: nat, data: Escrow, settled: Status) returns (r: Outcome<()>)
      requires id in escrows && data == escrows[id]
      modifies this`escrows, this`status, this`liability
      ensures var owed := Owing(old(liability), data.token) - data.amount;
              r == Require(InI128(owed) && owed >= 0, Overflow)
      ensures r.Ok? ==> Storage() == Closed(old(Storage()), id, settled)
    {
      escrows := escrows[id := data.(status := settled)];
      status := status[id := settled];
      r := SubLiability(data.token, data.amount);
    }

    /** Closes the record, then calls out, then publishes. */
    method Settle(ghost signers: set<Address>, id: nat, data: Escrow, settled: Status, f: Faults) returns (r: Outcome<()>)
      requires Valid() && id in escrows && data == escrows[id] && settled != Funded
      requires SettleFee(Storage(), data, settled).Ok? ==> MaySettle(Storage(), id, settled, signers)
      modifies this
      ensures Completes(old(Storage()), SettleRule(old(Storage()), id, data, settled, false, f), r, Storage())
      ensures r.Ok? ==> match settled
                        case Funded => false
                        case Released => DidRelease(old(Storage()), Storage(), id)
                        case Refunded => DidReturn(old(Storage()), Storage(), id, Refunded, ActRefunded, [])
                        case Cancelled => DidReturn(old(Storage()), Storage(), id, Cancelled, ActCancelled, [])
    {
      hide Inv, MaySettle, Fee, FeeShare, Transfer, WellFormed, Deliver, PayOut, PayFee, SettleFee, Credit, Owing,
           DidRelease, DidReturn, PaysAsDue;
      ghost var s := Storage();
      var fee :- CheckGates(data, settled);
      PaidStatesKeepInv(s, signers, id, settled);
      FeeIsFee(s, data, settled);
      PayOutDoes(s, id, settled);
      var _ :- WriteClosed(id, data, settled);
      var _ :- Disburse(s, id, data, settled, fee, f);
      events := events + [Lifecycle(SettledAction(settled), id, data.(status := settled))];
      ReleaseDoes(s, id);
      ReturnDoes(s, id, false);
      return Ok(());
    }

    // ---- entry points ------------------------------------------------------

    method StoreNew(data: Escrow) returns (id: nat)
      modifies this`escrows, this`status, this`nextId, this`events
      ensures id == old(nextId)
      ensures Storage() == old(Storage()).(
                escrows := old(escrows)[id := data],
                status := old(status)[id := data.status],
                nextId := id + 1,
                events := old(events) + [Lifecycle(ActCreated, id, data)])
    {
      id := TakeId();
      escrows := escrows[id := data];
      status := status[id := data.status];
      events := events + [Lifecycle(ActCreated, id, data)];
    }

    /** Every creation entry point; a batch has authorized the payer already. */
    method CreateEscrowInner(signers: set<Address>, p: CreateParams, payerAuthorized: bool, f: Faults) returns (r: Outcome<nat>)
      requires Valid() && (payerAuthorized ==> CanSign(signers, p.payer))
      modifies this
      ensures Completes(old(Storage()), CreateRule(old(Storage()), signers, p, payerAuthorized, f), Unit(r), Storage())
      ensures r.Ok? ==> r.value == old(nextId) && DidCreate(old(Storage()), Storage(), p)
    {
      hide Inv, TransferIn, Transfer, Credit, CheckFeeTerms, CheckTimes, CheckReleaserSet, TokenAllowed, DidCreate;
      ghost var s := Storage();
      if paused { return Err(Paused); }
      if !TokenAllowed(Storage(), p.token) { return Err(DisallowedToken); }
      if p.amount <= 0 { return Err(InvalidAmount); }
      var _ :- CheckTimes(now, p.refundAfter, p.releaseNotBefore);
      if |p.conditionRef| > MAX_CONDITION_REF_LEN { return Err(ConditionRefTooLong); }
      var _ :- ValidateReleaserSet(p.releasers, p.threshold);
      if RefundTo(p) == Contract { return Err(InvalidRefundTo); }
      var _ :- CheckFeeTerms(p.amount, p.feeRecipient, p.feeBps);
      if !payerAuthorized { var _ :- RequireAuth(signers, p.payer); }
      if p.notifyPayee { var _ :- RequireSecondAuth(signers, p.payer, p.payee); }
      var _ :- TransferInExact(p.token, p.payer, p.amount, f);
      var id := StoreNew(NewEscrow(p));
      CreationDoes(s, p);
      return Ok(id);
    }

    method CreatePooled(signers: set<Address>, p: PoolParams) returns (r: Outcome<nat>)
      modifies this
      ensures Completes(old(Storage()), CreatePooledRule(old(Storage()), signers, p), Unit(r), Storage())
      ensures r.Ok? ==> r.value == old(nextId) && DidPool(old(Storage()), Storage(), p)
    {
      hide CheckReleaserSet, TokenAllowed, DidPool;
      ghost var s := Storage();
      PoolCreationDoes(s, p);
      if paused { return Err(Paused); }
      if !TokenAllowed(Storage(), p.token) { return Err(DisallowedToken); }
      if p.target <= 0 { return Err(InvalidAmount); }
      if p.deadline <= now { return Err(InvalidFundingDeadline); }
      if |p.conditionRef| > MAX_CONDITION_REF_LEN { return Err(ConditionRefTooLong); }
      var _ :- ValidateReleaserSet([p.releaser], 1);
      var _ :- RequireAuth(signers, p.creator);
      var id := StoreNew(NewPooledEscrow(p));
      pooled := pooled[id := Pool(p.target, p.deadline)];
      return Ok(id);
    }

    method TopUp(signers: set<Address>, id: nat, payer: Address, amount: I128, f: Faults) returns (r: Outcome<()>)
      requires Valid()
      modifies this
      ensures Completes(old(Storage()), TopUpRule(old(Storage()), signers, id, payer, amount, f), r, Storage())
    {
      hide Inv, TransferIn, Transfer, Credit, FeeShare;
      if amount <= 0 { return Err(InvalidAmount); }
      if paused { return Err(Paused); }
      var _ :- RequireAuth(signers, payer);
      var data :- Load(Storage(), id);
      var _ :- RejectPooled(Storage(), id);
      if data.payer != payer { return Err(Unauthorized); }
      var _ :- CheckFunded(data);
      var updated :- CheckedAdd(data.amount, amount);
      if data.feeBps.Some? { var _ :- FeeAmount(updated, data.feeBps.value); }
      var _ :- TransferInExact(data.token, payer, amount, f);
      escrows := escrows[id := data.(amount := updated)];
      events := events + [ToppedUpEvent(id, amount, updated)];
      return Ok(());
    }

    method Contribute(signers: set<Address>, id: nat, payer: Address, amount: I128, f: Faults) returns (r: Outcome<()>)
      requires Valid()
      modifies this
      ensures Completes(old(Storage()), ContributeRule(old(Storage()), signers, id, payer, amount, f), r, Storage())
      ensures r.Ok? <==> ContributeAllowed(old(Storage()), signers, id, payer, amount, f)
    {
      hide Inv, TransferIn, Transfer, Credit, ContributeAllowed;
      ContributeSucceeds(Storage(), signers, id, payer, amount, f);
      if amount <= 0 { return Err(InvalidAmount); }
      if paused { return Err(Paused); }
      var data :- Load(Storage(), id);
      var pool :- PooledData(Storage(), id);
      var _ :- CheckFunded(data);
      if now >= pool.deadline { return Err(FundingDeadlinePassed); }
      var remaining :- CheckedAdd(pool.target, -data.amount);
      if amount > remaining { return Err(FundingTargetReached); }
      var _ :- RequireAuth(signers, payer);
      var _ :- TransferInExact(data.token, payer, amount, f);
      r := RecordContribution(id, data, payer, amount);
    }

    method RecordContribution(id: nat, data: Escrow, payer: Address, amount: int) returns (r: Outcome<()>)
      modifies this`contributions, this`escrows, this`events
      ensures var record := RecordOf(old(Storage()), id, payer);
              && r == (if !InI128(record.amount + amount) || !InI128(data.amount + amount) then Err(Overflow) else Ok(()))
              && (r.Ok? ==> Storage() == old(Storage()).(
                    escrows := old(escrows)[id := data.(amount := data.amount + amount)],
                    contributions := old(contributions)[(id, payer) := record.(amount := record.amount + amount)],
                    events := old(events) + [ContributedEvent(id, payer, amount, data.amount + amount)]))
    {
      var record := RecordOf(Storage(), id, payer);
      var total :- CheckedAdd(record.amount, amount);
      var funded :- CheckedAdd(data.amount, amount);
      contributions := contributions[(id, payer) := record.(amount := total)];
      escrows := escrows[id := data.(amount := funded)];
      events := events + [ContributedEvent(id, payer, amount, funded)];
      return Ok(());
    }

    /** The three writes of a claim, all made before the token call. */
    method WriteClaimed(id: nat, data: Escrow, who: Address, record: Contribution) returns (r: Outcome<()>)
      requires id in escrows && data == escrows[id]
      requires (id, who) in contributions && record == contributions[(id, who)]
      modifies this`escrows, this`contributions, this`liability
      ensures var owed := Owing(old(liability), data.token) - record.amount;
              r == Require(InI128(data.amount - record.amount) && InI128(owed) && owed >= 0, Overflow)
      ensures r.Ok? ==> Storage() == MarkedClaimed(old(Storage()), id, who)
    {
      var lowered :- CheckedAdd(data.amount, -record.amount);
      contributions := contributions[(id, who) := record.(refunded := true)];
      escrows := escrows[id := data.(amount := lowered)];
      r := SubLiability(data.token, record.amount);
    }

    /** Marks the claim spent and lowers the total before it pays. */
    method ClaimRefund(signers: set<Address>, id: nat, contributor: Address, f: Faults) returns (r: Outcome<()>)
      requires Valid()
      modifies this
      ensures Completes(old(Storage()), ClaimRule(old(Storage()), signers, id, contributor, f), r, Storage())
    {
      hide Inv, Transfer, Credit, Owing;
      ghost var s := Storage();
      var _ :- RequireAuth(signers, contributor);
      var data :- Load(Storage(), id);
      var pool :- PooledData(Storage(), id);
      var _ :- CheckFunded(data);
      if now < pool.deadline { return Err(RefundNotOpen); }
      if data.amount >= pool.target { return Err(FundingTargetReached); }
      if (id, contributor) !in contributions { return Err(NoContribution); }
      var record := contributions[(id, contributor)];
      if record.refunded { return Err(AlreadyRefunded); }
      MarkedClaimedKeepsInv(s, signers, id, contributor);
      var _ :- WriteClaimed(id, data, contributor, record);
      var paid := CallTransfer(OfClaim(id, contributor), data.token, contributor, record.amount, f.payoutFails);
      if !paid { return Trap; }
      events := events + [ClaimedEvent(id, contributor, record.amount)];
      return Ok(());
    }

    method Accept(signers: set<Address>, id: nat, payee: Address) returns (r: Outcome<()>)
      modifies this
      ensures Completes(old(Storage()), AcceptRule(old(Storage()), signers, id, payee), r, Storage())
    {
      var _ :- RequireAuth(signers, payee);
      var data :- Load(Storage(), id);
      if data.payee != payee { return Err(Unauthorized); }
      var _ :- CheckFunded(data);
      if !data.requiresAcceptance { return Err(AcceptanceNotConfigured); }
      if data.acceptedAt.Some? { return Err(AlreadyAccepted); }
      escrows := escrows[id := data.(acceptedAt := Some(now))];
      events := events + [AcceptedEvent(id, payee, now)];
      return Ok(());
    }

    method Rotate(signers: set<Address>, id: nat, caller: Address, releaser: Address) returns (r: Outcome<()>)
      modifies this
      ensures Completes(old(Storage()), RotateRule(old(Storage()), signers, id, caller, releaser), r, Storage())
    {
      var _ :- RequireAuth(signers, caller);
      var data :- Load(Storage(), id);
      if data.threshold != 1 { return Err(ThresholdNotMet); }
      if data.releasers == [] { return Err(InvalidReleaser); }
      var previous := data.releasers[0];
      if caller != previous { return Err(Unauthorized); }
      var _ :- CheckFunded(data);
      if releaser == Contract || releaser == data.payee { return Err(InvalidReleaser); }
      var _ :- RequireSecondAuth(signers, caller, data.payer);
      escrows := escrows[id := data.(releasers := [releaser])];
      events := events + [RotatedEvent(id, previous, releaser)];
      return Ok(());
    }

    method TransferPayeeRights(signers: set<Address>, id: nat, current: Address, next: Address) returns (r: Outcome<()>)
      modifies this
      ensures Completes(old(Storage()), TransferPayeeRule(old(Storage()), signers, id, current, next), r, Storage())
    {
      var _ :- RequireAuth(signers, current);
      var data :- Load(Storage(), id);
      if current != data.payee { return Err(Unauthorized); }
      var _ :- CheckFunded(data);
      if next == Contract || next == data.payer { return Err(InvalidNewPayee); }
      escrows := escrows[id := data.(payee := next)];
      events := events + [PayeeMovedEvent(id, data.payee, next)];
      return Ok(());
    }

    method SetPause(signers: set<Address>, caller: Address, flag: bool) returns (r: Outcome<()>)
      modifies this
      ensures Completes(old(Storage()), PauseRule(old(Storage()), signers, caller, flag), r, Storage())
    {
      var _ :- RequireAuth(signers, caller);
      if caller != pauseAdmin { return Err(Unauthorized); }
      if paused == flag { return Err(if flag then AlreadyPaused else NotPaused); }
      paused := flag;
      events := events + [if flag then PausedEvent(caller) else UnpausedEvent(caller)];
      return Ok(());
    }

    method ReleaseEscrow(signers: set<Address>, id: nat, caller: Address, f: Faults) returns (r: Outcome<()>)
      requires Valid()
      modifies this
      ensures Completes(old(Storage()), ReleaseRule(old(Storage()), signers, id, caller, f), r, Storage())
    {
      hide Inv, SettleRule, CheckSingleCaller, QuorumSigned, After, Fits;
      var _ :- RequireAuth(signers, caller);
      var data :- ReleaseChecks(Storage(), id, caller);
      SingleCallerQuorum(data, caller, signers);
      r := Settle(signers, id, data, Released, f);
    }

    method ReleaseApproved(signers: set<Address>, id: nat, approvers: seq<Address>, f: Faults) returns (r: Outcome<()>)
      requires Valid()
      modifies this
      ensures Completes(old(Storage()), ReleaseWithApprovalsRule(old(Storage()), signers, id, approvers, f), r, Storage())
    {
      hide Inv, SettleRule, CheckApprovals, QuorumSigned, After, Fits;
      var data :- Load(Storage(), id);
      var _ :- ValidateApprovals(data, approvers, signers);
      ApprovalsQuorum(data, approvers, signers);
      var _ :- CheckFunded(data);
      var _ :- CheckPooledFullyFunded(Storage(), id, data);
      r := Settle(signers, id, data, Released, f);
    }

    method RefundEscrow(signers: set<Address>, id: nat, caller: Address, f: Faults) returns (r: Outcome<()>)
      requires Valid()
      modifies this
      ensures Completes(old(Storage()), RefundRule(old(Storage()), signers, id, caller, f), r, Storage())
    {
      hide Inv, CheckSingleCaller, QuorumSigned, SettleFee, Deliver, PayOut, Credit, Owing;
      ghost var s := Storage();
      var _ :- RequireAuth(signers, caller);
      var loaded :- Load(Storage(), id);
      if caller == loaded.payee {
        var _ :- RejectPooled(Storage(), id);
        var _ :- CheckFunded(loaded);
        var _ :- Settle(signers, id, loaded, Refunded, f);
        events := events + [PayeeRefundedEvent(id, loaded.payer, loaded.payee, loaded.amount)];
        assert events == s.events + SettleEvents(id, loaded, Refunded, true);
        return Ok(());
      }
      var data :- RefundChecks(Storage(), id, caller);
      if !TimedOut(s, data) { SingleCallerQuorum(data, caller, signers); }
      r := Settle(signers, id, data, Refunded, f);
    }

    method RefundApproved(signers: set<Address>, id: nat, approvers: seq<Address>, f: Faults) returns (r: Outcome<()>)
      requires Valid()
      modifies this
      ensures Completes(old(Storage()), RefundWithApprovalsRule(old(Storage()), signers, id, approvers, f), r, Storage())
    {
      hide Inv, SettleRule, CheckApprovals, QuorumSigned, After, Fits;
      var data :- Load(Storage(), id);
      var _ :- RejectPooled(Storage(), id);
      var _ :- ValidateApprovals(data, approvers, signers);
      ApprovalsQuorum(data, approvers, signers);
      var _ :- CheckFunded(data);
      r := Settle(signers, id, data, Refunded, f);
    }

    method Cancel(signers: set<Address>, id: nat, payer: Address, f: Faults) returns (r: Outcome<()>)
      requires Valid()
      modifies this
      ensures Completes(old(Storage()), CancelRule(old(Storage()), signers, id, payer, f), r, Storage())
    {
      hide Inv, SettleRule, QuorumSigned, After, Fits;
      var _ :- RequireAuth(signers, payer);
      var data :- Load(Storage(), id);
      var _ :- RejectPooled(Storage(), id);
      if payer != data.payer { return Err(Unauthorized); }
      var _ :- CheckFunded(data);
      if !data.requiresAcceptance { return Err(AcceptanceNotConfigured); }
      if data.acceptedAt.Some? { return Err(AlreadyAccepted); }
      r := Settle(signers, id, data, Cancelled, f);
    }

    // ---- batches -----------------------------------------------------------

    /** One batch operation: `Err` touched nothing, `Trap` takes the whole batch down. */
    method SettleOne(ghost signers: set<Address>, id: nat, caller: Address, action: SettleAction, f: Faults) returns (r: Outcome<()>)
      requires Valid() && CanSign(signers, caller)
      modifies this
      ensures Completes(old(Storage()), SettleOneRule(old(Storage()), id, caller, action, f), r, Storage())
      ensures r.Err? ==> Storage() == old(Storage())
    {
      hide Inv, SettleRule, CheckSingleCaller, QuorumSigned, After, Fits;
      ghost var s := Storage();
      var data: Escrow;
      if action == DoRelease {
        data :- ReleaseChecks(Storage(), id, caller);
        SingleCallerQuorum(data, caller, signers);
        if data.releaseNotBefore.Some? && now < data.releaseNotBefore.value { return Err(ReleaseTooEarly); }
        if data.requiresAcceptance && data.acceptedAt.None? { return Err(AcceptanceRequired); }
      } else {
        data :- RefundChecks(Storage(), id, caller);
        if !TimedOut(s, data) { SingleCallerQuorum(data, caller, signers); }
      }
      r := Settle(signers, id, data, if action == DoRelease then Released else Refunded, f);
      if r.Err? { return Trap; }
    }

    /** All or nothing: the first item that fails decides the whole call. */
    method CreateMany(signers: set<Address>, payer: Address, items: seq<Item>, faults: seq<Faults>) returns (r: Outcome<seq<nat>>)
      requires Valid()
      modifies this
      ensures var rule := CreateEscrowsRule(old(Storage()), signers, payer, items, faults);
              match r
              case Ok(ids) =>
                && rule.Ok? && Storage() == AfterAll(old(Storage()), rule.value)
                && |ids| == |items| && forall i :: 0 <= i < |ids| ==> ids[i] == old(nextId) + i
              case Err(error) => rule == Err(error)
              case Trap => rule == Trap
    {
      hide Inv, CreateRule, After, Fits, PermittedAll, Permitted, DidCreate;
      if |items| > MAX_BATCH_SIZE { return Err(BatchTooLarge); }
      var _ :- RequireAuth(signers, payer);
      ghost var s := Storage();
      ghost var moves: seq<Move> := [];
      var ids: seq<nat> := [];
      for i := 0 to |items|
        invariant Valid()
        invariant CreateAll(s, signers, payer, items[..i], faults) == Ok(moves)
        invariant Storage() == AfterAll(s, moves)
        invariant |ids| == i && nextId == s.nextId + i && forall j :: 0 <= j < i ==> ids[j] == s.nextId + j
      {
        assert items[..i + 1][..i] == items[..i];
        ghost var before := Storage();
        var p := ItemParams(payer, items[i]);
        var made := CreateEscrowInner(signers, p, true, FaultAt(faults, i));
        if made.IsFailure() {
          CreateFailure(s, signers, payer, items, faults, i + 1);
          return made.PropagateFailure();
        }
        CreateFollows(before, signers, p, FaultAt(faults, i));
        AfterMore(s, moves, Open(NewEscrow(p)));
        moves := moves + [Open(NewEscrow(p))];
        ids := ids + [made.value];
      }
      assert items[..|items|] == items;
      return Ok(ids);
    }

    /** Best effort: one result per operation, in order. */
    method SettleBatch(signers: set<Address>, caller: Address, ops: seq<(nat, SettleAction)>, faults: seq<Faults>)
      returns (r: Outcome<seq<Outcome<()>>>)
      requires Valid()
      modifies this
      ensures var rule := SettleManyRule(old(Storage()), signers, caller, ops, faults);
              match r
              case Ok(results) => rule.Ok? && results == rule.value.results && Storage() == AfterAll(old(Storage()), rule.value.moves)
              case Err(error) => rule == Err(error)
              case Trap => rule == Trap
    {
      hide Inv, SettleOneRule, After, Fits, PermittedAll, Permitted;
      if |ops| > MAX_SETTLE_OPS { return Err(BatchTooLarge); }
      var _ :- RequireAuth(signers, caller);
      ghost var s := Storage();
      ghost var moves: seq<Move> := [];
      var results: seq<Outcome<()>> := [];
      for i := 0 to |ops|
        invariant Valid()
        invariant SettleAll(s, caller, ops[..i], faults) == Ok(Settlement(moves, results))
        invariant Storage() == AfterAll(s, moves)
      {
        assert ops[..i + 1][..i] == ops[..i];
        ghost var before := Storage();
        var one := SettleOne(signers, ops[i].0, caller, ops[i].1, FaultAt(faults, i));
        if one == Trap {
          SettleFailure(s, caller, ops, faults, i + 1);
          return Trap;
        }
        if one.Ok? {
          ghost var m := SettleOneRule(before, ops[i].0, caller, ops[i].1, FaultAt(faults, i)).value;
          SettleFollows(before, signers, ops[i].0, caller, ops[i].1, FaultAt(faults, i));
          AfterMore(s, moves, m);
          moves := moves + [m];
        }
        results := results + [one];
      }
      assert ops[..|ops|] == ops;
      return Ok(results);
    }

    // ---- the invocation ----------------------------------------------------

    /** One signed call: it completes, or the host undoes every write it made. */
    method Invoke(signers: set<Address>, call: Call, f: Faults) returns (r: Outcome<()>)
      requires Valid()
      modifies this
      ensures Valid()
      ensures CompletesOrRollsBack(old(Storage()), Rule(old(Storage()), signers, call, f), r, Storage())
      ensures match r
              case Ok(_) => Admissible(old(Storage()), signers, call, f) && Did(old(Storage()), call, Storage())
              case Err(error) => Explains(old(Storage()), call, f, error) && Storage() == old(Storage())
              case Trap => Stopped(old(Storage()), signers, call, f) && Storage() == old(Storage())
      ensures Admissible(old(Storage()), signers, call, f) ==> r.Ok?
    {
      hide Inv, After, Fits, Permitted, Admissible, Did, Explains, Stopped;
      hide CreateRule, CreatePooledRule, TopUpRule, ContributeRule, ClaimRule, AcceptRule, RotateRule, TransferPayeeRule,
           ReleaseRule, ReleaseWithApprovalsRule, RefundRule, RefundWithApprovalsRule, CancelRule, PauseRule;
      var snapshot := Storage();
      match call {
        case CreateEscrow(p) => var made := CreateEscrowInner(signers, p, false, f); r := Unit(made);
        case CreatePooledEscrow(p) => var made := CreatePooled(signers, p); r := Unit(made);
        case TopUpEscrow(id, caller, amount) => r := TopUp(signers, id, caller, amount, f);
        case ContributeTo(id, caller, amount) => r := Contribute(signers, id, caller, amount, f);
        case ClaimRefund(id, caller) => r := ClaimRefund(signers, id, caller, f);
        case AcceptEscrow(id, caller) => r := Accept(signers, id, caller);
        case RotateReleaser(id, caller, releaser) => r := Rotate(signers, id, caller, releaser);
        case TransferPayee(id, caller, payee) => r := TransferPayeeRights(signers, id, caller, payee);
        case Release(id, caller) => r := ReleaseEscrow(signers, id, caller, f);
        case ReleaseWithApprovals(id, approvers) => r := ReleaseApproved(signers, id, approvers, f);
        case Refund(id, caller) => r := RefundEscrow(signers, id, caller, f);
        case RefundWithApprovals(id, approvers) => r := RefundApproved(signers, id, approvers, f);
        case CancelEscrow(id, caller) => r := Cancel(signers, id, caller, f);
        case SwitchPause(caller, flag) => r := SetPause(signers, caller, flag);
      }
      Answered(snapshot, signers, call, f, r, Storage());
      if !r.Ok? { Restore(snapshot); }
    }

    method InvokeCreateMany(signers: set<Address>, payer: Address, items: seq<Item>, faults: seq<Faults>) returns (r: Outcome<seq<nat>>)
      requires Valid()
      modifies this
      ensures Valid()
      ensures Storage() == Take(old(Storage()), Step.Invoke(signers, CreateEscrows(payer, items), faults))
      ensures match r
              case Ok(ids) => |ids| == |items| && forall i :: 0 <= i < |items| ==> ids[i] == old(nextId) + i
              case Err(error) => CreateEscrowsRule(old(Storage()), signers, payer, items, faults) == Err(error)
              case Trap => CreateEscrowsRule(old(Storage()), signers, payer, items, faults) == Trap
    {
      hide Inv, CreateEscrowsRule, AfterAll, Rule, SettleManyRule;
      var snapshot := Storage();
      r := CreateMany(signers, payer, items, faults);
      if !r.Ok? { Restore(snapshot); }
      TakeKeepsInv(snapshot, Step.Invoke(signers, CreateEscrows(payer, items), faults));
    }

    method InvokeSettleMany(signers: set<Address>, caller: Address, ops: seq<(nat, SettleAction)>, faults: seq<Faults>)
      returns (r: Outcome<seq<Outcome<()>>>)
      requires Valid()
      modifies this
      ensures Valid()
      ensures Storage() == Take(old(Storage()), Step.Invoke(signers, SettleMany(caller, ops), faults))
      ensures var rule := SettleManyRule(old(Storage()), signers, caller, ops, faults);
              match r
              case Ok(results) => rule.Ok? && results == rule.value.results
              case Err(error) => rule == Err(error)
              case Trap => rule == Trap
    {
      hide Inv, CreateEscrowsRule, AfterAll, Rule, SettleManyRule;
      var snapshot := Storage();
      r := SettleBatch(signers, caller, ops, faults);
      if !r.Ok? { Restore(snapshot); }
      TakeKeepsInv(snapshot, Step.Invoke(signers, SettleMany(caller, ops), faults));
    }
  }

  lemma FeeIsFee(s: State, e: Escrow, settled: Status)
    requires SettleFee(s, e, settled).Ok?
    ensures SettleFee(s, e, settled).value == Fee(e, settled)
    ensures Fee(e, settled) > 0 ==> e.feeRecipient.Some?
  {
  }
}
