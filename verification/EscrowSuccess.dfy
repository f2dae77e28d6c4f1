// On a state that meets the invariant the contract's defensive failures never
// happen, and each settlement succeeds exactly when it is authorized and delivered.
module EscrowSuccess {
  import opened Prelude
  import opened EscrowTypes
  import opened EscrowRules
  import opened EscrowMoves
  import opened EscrowSafety
  import opened EscrowRuns

  /** No outside party fails the transfers or the callback this settlement makes. */
  predicate Delivered(e: Escrow, settled: Status, f: Faults) {
    && (Fee(e, settled) > 0 ==> !f.feeFails)
    && !f.payoutFails
    && (settled == Released && e.notifyPayee ==> !f.callbackFails)
  }

  lemma BalanceAfterFee(b: Balances, e: Escrow, settled: Status)
    requires WellFormed(e)
    requires 0 <= Fee(e, settled) <= e.amount <= Balance(b, e.token, Contract)
    ensures Balance(PayFee(b, e, settled), e.token, Contract) >= e.amount - Fee(e, settled)
  {
  }

  /**
   * `settle` on a funded record fails only at its release gates or because an
   * outside party refuses: its counter subtraction and its fee multiplication
   * never overflow, and the contract always holds what it has to pay.
   */
  lemma SettleOutcome(s: State, id: nat, settled: Status, byPayee: bool, f: Faults)
    requires Inv(s) && id in s.escrows && s.escrows[id].status == Funded && settled != Funded
    ensures var e := s.escrows[id];
            SettleRule(s, id, e, settled, byPayee, f)
            == if settled == Released && ReleaseGates(s, e).Err? then Err(ReleaseGates(s, e).error)
               else if Delivered(e, settled, f) then Ok(Settle(id, settled, byPayee))
               else if settled != Released then Trap
               else if (Fee(e, settled) > 0 && f.feeFails) || f.payoutFails then Err(Undeliverable)
               else Err(CallbackFailed)
  {
    hide Inv, Balance, PayFee, Fee, FeeShare, Liability;
    var e := s.escrows[id];
    RecordFacts(s, id);
    AmountWithinLiability(s, id);
    FeeBound(e, settled);
    BalanceAfterFee(s.balances, e, settled);
    LiabilityRange(s, e.token);
  }

  /** What a settlement adds to holder `x`: the fee, the rest, and the contract's outlay. */
  function Payment(e: Escrow, settled: Status, x: Address): int {
    var fee := Fee(e, settled);
    (if e.feeRecipient == Some(x) then fee else 0)
    + (if x == Destination(e, settled) then e.amount - fee else 0)
    - (if x == Contract then e.amount else 0)
  }

  /**
   * A settlement pays out exactly the amount: on release floor(amount * bps / 10000)
   * to the fee recipient and the remainder to the payee, otherwise everything to
   * `refundTo`. No other balance but the contract's and no supply changes.
   */
  lemma SettlementPays(s: State, id: nat, settled: Status, byPayee: bool)
    requires Inv(s) && id in s.escrows && s.escrows[id].status == Funded && settled != Funded
    ensures var e, t := s.escrows[id], Settled(s, id, settled, byPayee);
            var fee := if settled == Released && e.feeBps.Some? then e.amount * e.feeBps.value / 10000 else 0;
            && (forall token: Address, x: Address ::
                  Balance(t.balances, token, x)
                  == Balance(s.balances, token, x)
                   + (if token == e.token && settled == Released && x == e.payee then e.amount - fee else 0)
                   + (if token == e.token && settled == Released && e.feeRecipient == Some(x) then fee else 0)
                   + (if token == e.token && settled != Released && x == e.refundTo then e.amount else 0)
                   - (if token == e.token && x == Contract then e.amount else 0))
            && (forall token: Address :: Supply(t.balances, token) == Supply(s.balances, token))
            && 0 <= fee <= e.amount / 10
  {
    hide Inv, PayOut, Balance, Supply, FeeShare;
    var e := s.escrows[id];
    RecordFacts(s, id);
    if e.feeBps.Some? { ShareBound(e.amount, e.feeBps.value); }
    FeeBound(e, settled);
    PayOutAt(s.balances, e, settled);
  }

  lemma PayOutAt(b: Balances, e: Escrow, settled: Status)
    requires Fee(e, settled) >= 0 && (Fee(e, settled) > 0 ==> e.feeRecipient.Some?)
    ensures var b' := PayOut(b, e, settled);
            && (forall token: Address, x: Address ::
                  Balance(b', token, x) == Balance(b, token, x) + if token == e.token then Payment(e, settled, x) else 0)
            && (forall token: Address :: Supply(b', token) == Supply(b, token))
  {
    hide Balance, Transfer, Supply, FeeShare, Fee;
    var fee, paid, to := Fee(e, settled), PayFee(b, e, settled), Destination(e, settled);
    if fee > 0 { TransferAt(b, e.token, Contract, e.feeRecipient.value, fee); }
    TransferAt(paid, e.token, Contract, to, e.amount - fee);
    forall token: Address ensures Supply(PayOut(b, e, settled), token) == Supply(b, token) {
      if fee > 0 { TransferKeepsSupply(b, e.token, Contract, e.feeRecipient.value, fee, token); }
      TransferKeepsSupply(paid, e.token, Contract, to, e.amount - fee, token);
    }
  }

  lemma LiabilityRange(s: State, token: Address)
    requires Inv(s)
    ensures 0 <= Liability(s, token) <= I128_MAX
  {
    HoldersWithinSupply(s.balances, token, Contract, Contract);
    assert Liability(s, token) == Owed(s.escrows, token);
    forall j | j in s.escrows ensures OwedTerm(token)(j, s.escrows[j]) >= 0 {
      RecordFacts(s, j);
    }
    SumNonNegative(s.escrows, OwedTerm(token));
  }

  /** The counter addition of a verified deposit never overflows. */
  lemma TransferInOutcome(s: State, token: Address, payer: Address, amount: int, f: Faults)
    requires Inv(s) && payer != Contract && amount >= 0
    ensures TransferIn(s, token, payer, amount, f)
            == if f.inboundRefused || Balance(s.balances, token, payer) < amount then Trap
               else if f.skew != 0 then Err(BalanceMismatch)
               else Ok(())
  {
    HoldersWithinSupply(s.balances, token, Contract, payer);
    LiabilityRange(s, token);
    assert Liability(s, token) <= Balance(s.balances, token, Contract);
  }

  /** A claim never fails on arithmetic: it pays exactly when the round failed and the token delivers. */
  lemma ClaimOutcome(s: State, signers: set<Address>, id: nat, who: Address, f: Faults)
    requires Inv(s)
    ensures ClaimRule(s, signers, id, who, f) != Err(Overflow)
    ensures ClaimRule(s, signers, id, who, f).Ok? <==> MayClaim(s, id, who, signers) && !f.payoutFails
    ensures ClaimRule(s, signers, id, who, f).Ok? ==> ClaimRule(s, signers, id, who, f).value == Claim(id, who)
  {
    hide Inv, Balance, Owing;
    if MayClaim(s, id, who, signers) {
      ClaimFacts(s, signers, id, who);
      LiabilityRange(s, s.escrows[id].token);
      PoolRecordRange(s, id);
    }
    ClaimNeverOverflows(s, signers, id, who, f);
  }

  lemma ClaimNeverOverflows(s: State, signers: set<Address>, id: nat, who: Address, f: Faults)
    requires Inv(s)
    ensures ClaimRule(s, signers, id, who, f) != Err(Overflow)
  {
    hide Inv, Balance, Owing;
    if MayClaim(s, id, who, signers) {
      ClaimFacts(s, signers, id, who);
      LiabilityRange(s, s.escrows[id].token);
      PoolRecordRange(s, id);
    }
  }

  /** A release by one caller succeeds iff the caller is the sole needed releaser and every gate is open. */
  lemma ReleaseSucceeds(s: State, signers: set<Address>, id: nat, caller: Address, f: Faults)
    requires Inv(s)
    ensures ReleaseRule(s, signers, id, caller, f).Ok? <==>
              && CanSign(signers, caller)
              && id in s.escrows
              && var e := s.escrows[id];
              && caller in e.releasers && e.threshold == 1
              && e.status == Funded && FullyFunded(s, id, e)
              && (e.releaseNotBefore.Some? ==> s.now >= e.releaseNotBefore.value)
              && (e.requiresAcceptance ==> e.acceptedAt.Some?)
              && Delivered(e, Released, f)
    ensures ReleaseRule(s, signers, id, caller, f).Ok? ==>
              ReleaseRule(s, signers, id, caller, f).value == Settle(id, Released, false)
  {
    hide Inv, SettleRule, Delivered;
    if id in s.escrows && s.escrows[id].status == Funded { SettleOutcome(s, id, Released, false, f); }
  }

  /** Any quorum can release: the approvals path succeeds iff its list is distinct, stored, signed and long enough. */
  lemma ReleaseWithApprovalsSucceeds(s: State, signers: set<Address>, id: nat, approvers: seq<Address>, f: Faults)
    requires Inv(s)
    ensures ReleaseWithApprovalsRule(s, signers, id, approvers, f).Ok? <==>
              && id in s.escrows
              && var e := s.escrows[id];
              && |approvers| >= e.threshold && !HasDuplicates(approvers)
              && (forall i :: 0 <= i < |approvers| ==> approvers[i] in e.releasers && CanSign(signers, approvers[i]))
              && e.status == Funded && FullyFunded(s, id, e)
              && (e.releaseNotBefore.Some? ==> s.now >= e.releaseNotBefore.value)
              && (e.requiresAcceptance ==> e.acceptedAt.Some?)
              && Delivered(e, Released, f)
  {
    hide Inv, SettleRule, Delivered, ScanApprovals;
    if id in s.escrows {
      ScanMeaning(s.escrows[id], approvers, signers);
      if s.escrows[id].status == Funded { SettleOutcome(s, id, Released, false, f); }
    }
  }

  /** A refund succeeds iff the payee asks, or a lone releaser asks, or the deadline has passed. */
  lemma RefundSucceeds(s: State, signers: set<Address>, id: nat, caller: Address, f: Faults)
    requires Inv(s)
    ensures RefundRule(s, signers, id, caller, f).Ok? <==>
              && CanSign(signers, caller)
              && id in s.escrows && id !in s.pooled
              && var e := s.escrows[id];
              && e.status == Funded
              && (caller == e.payee || TimedOut(s, e) || (caller in e.releasers && e.threshold == 1))
              && !f.payoutFails
    ensures RefundRule(s, signers, id, caller, f).Ok? ==>
              RefundRule(s, signers, id, caller, f).value == Settle(id, Refunded, caller == s.escrows[id].payee)
  {
    hide Inv, SettleRule;
    if id in s.escrows && s.escrows[id].status == Funded {
      SettleOutcome(s, id, Refunded, false, f);
      SettleOutcome(s, id, Refunded, true, f);
      assert Fee(s.escrows[id], Refunded) == 0;
    }
  }

  lemma RefundWithApprovalsSucceeds(s: State, signers: set<Address>, id: nat, approvers: seq<Address>, f: Faults)
    requires Inv(s)
    ensures RefundWithApprovalsRule(s, signers, id, approvers, f).Ok? <==>
              && id in s.escrows && id !in s.pooled
              && var e := s.escrows[id];
              && |approvers| >= e.threshold && !HasDuplicates(approvers)
              && (forall i :: 0 <= i < |approvers| ==> approvers[i] in e.releasers && CanSign(signers, approvers[i]))
              && e.status == Funded && !f.payoutFails
    ensures RefundWithApprovalsRule(s, signers, id, approvers, f).Ok? ==>
              RefundWithApprovalsRule(s, signers, id, approvers, f).value == Settle(id, Refunded, false)
  {
    hide Inv, SettleRule, ScanApprovals;
    if id in s.escrows {
      ScanMeaning(s.escrows[id], approvers, signers);
      if s.escrows[id].status == Funded { SettleOutcome(s, id, Refunded, false, f); assert Fee(s.escrows[id], Refunded) == 0; }
    }
  }

  /** A cancel succeeds iff the payer asks before the payee has accepted an escrow that needs acceptance. */
  lemma CancelSucceeds(s: State, signers: set<Address>, id: nat, payer: Address, f: Faults)
    requires Inv(s)
    ensures CancelRule(s, signers, id, payer, f).Ok? <==>
              && CanSign(signers, payer)
              && id in s.escrows && id !in s.pooled
              && var e := s.escrows[id];
              && payer == e.payer && e.status == Funded
              && e.requiresAcceptance && e.acceptedAt.None?
              && !f.payoutFails
    ensures CancelRule(s, signers, id, payer, f).Ok? ==>
              CancelRule(s, signers, id, payer, f).value == Settle(id, Cancelled, false)
  {
    hide Inv, SettleRule;
    if id in s.escrows && s.escrows[id].status == Funded {
      SettleOutcome(s, id, Cancelled, false, f);
      assert Fee(s.escrows[id], Cancelled) == 0;
    }
  }

  /** Creation never overflows: its amount was checked against the fee and the counter has room. */
  lemma CreateNeverOverflows(s: State, signers: set<Address>, p: CreateParams, f: Faults)
    requires Inv(s)
    ensures CreateRule(s, signers, p, false, f) != Err(Overflow)
  {
    hide Inv, TransferIn, CheckFeeTerms, CheckTimes, CheckReleaserSet, TokenAllowed;
    if p.payer != Contract && p.amount > 0 { TransferInOutcome(s, p.token, p.payer, p.amount, f); }
    CheckErrors(p.amount, p.feeRecipient, p.feeBps, s.now, p.refundAfter, p.releaseNotBefore, p.releasers, p.threshold);
  }

  /** A top-up overflows only on the sum the caller asked for, never on the counter. */
  lemma TopUpOverflow(s: State, signers: set<Address>, id: nat, payer: Address, amount: I128, f: Faults)
    requires Inv(s)
    ensures TopUpRule(s, signers, id, payer, amount, f) == Err(Overflow) ==>
              id in s.escrows && s.escrows[id].amount + amount > I128_MAX
  {
    hide Inv, TransferIn, FeeShare, WellFormed;
    if amount > 0 && payer != Contract && id in s.escrows {
      TransferInOutcome(s, s.escrows[id].token, payer, amount, f);
      RecordFacts(s, id);
    }
  }

  lemma CheckErrors(amount: int, r: Option<Address>, b: Option<nat>, now: nat, t: Option<nat>, u: Option<nat>, releasers: seq<Address>, threshold: nat)
    ensures CheckFeeTerms(amount, r, b) != Err(Overflow)
    ensures CheckTimes(now, t, u) != Err(Overflow)
    ensures CheckReleaserSet(releasers, threshold) != Err(Overflow)
  {
  }

  lemma ContributeNeverOverflows(s: State, signers: set<Address>, id: nat, payer: Address, amount: I128, f: Faults)
    requires Inv(s)
    ensures ContributeRule(s, signers, id, payer, amount, f) != Err(Overflow)
  {
    hide Inv, TransferIn, WellFormed;
    if id in s.escrows && id in s.pooled {
      PoolRecordRange(s, id);
      if amount > 0 && payer != Contract && s.escrows[id].status == Funded && s.now < s.pooled[id].deadline {
        TransferInOutcome(s, s.escrows[id].token, payer, amount, f);
        RecordFacts(s, id);
        ContributePledges(s, id, payer, amount);
        PledgeShare(s, id, payer);
      }
    }
  }

  lemma PledgeShare(s: State, id: nat, who: Address)
    requires Inv(s) && id in s.escrows && id in s.pooled && s.escrows[id].status == Funded
    requires !RecordOf(s, id, who).refunded
    ensures 0 <= RecordOf(s, id, who).amount <= s.escrows[id].amount
  {
    RecordFacts(s, id);
    forall j | j in s.contributions ensures s.contributions[j].amount > 0 {
      ContributionFacts(s, j);
    }
    if (id, who) in s.contributions { PledgeWithin(s.contributions, (id, who)); }
  }
}
