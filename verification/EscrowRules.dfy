// The checks of every entry point, in the order the contract makes them.
//
// A rule reads storage and answers with the error or trap that ends the call,
// or with the one `Move` the call then makes. `EscrowMoves.After` says what a
// move does; `EscrowContract` performs the same work write by write.
module EscrowRules {
  import opened Prelude
  import opened EscrowTypes

  type I128 = x: int | InI128(x)

  /** The one change of the ledger that a successful call makes. */
  datatype Move =
    | Open(data: Escrow)
    | OpenPool(data: Escrow, pool: Pool)
    | TopUp(id: nat, amount: int)
    | Contribute(id: nat, who: Address, amount: int)
    | Claim(id: nat, who: Address)
    | Accept(id: nat)
    | Rotate(id: nat, releaser: Address)
    | Redirect(id: nat, payee: Address)
    | Settle(id: nat, settled: Status, byPayee: bool)
    | SetPaused(flag: bool)

  /** Arguments of the shared creation path; the public entry points fix some of them. */
  datatype CreateParams = CreateParams(
    payer: Address,
    payee: Address,
    token: Address,
    amount: I128,
    conditionRef: string,
    releasers: seq<Address>,
    threshold: nat,
    refundAfter: Option<nat>,
    notifyPayee: bool,
    requiresAcceptance: bool,
    refundTo: Option<Address>,
    releaseNotBefore: Option<nat>,
    feeRecipient: Option<Address>,
    feeBps: Option<nat>)

  datatype PoolParams = PoolParams(
    creator: Address,
    payee: Address,
    token: Address,
    target: I128,
    conditionRef: string,
    releaser: Address,
    deadline: nat)

  // ---- authorization -----------------------------------------------------

  predicate CanSign(signers: set<Address>, a: Address) { a in signers && a != Contract }

  function RequireAuth(signers: set<Address>, a: Address): Outcome<()> {
    if CanSign(signers, a) then Ok(()) else Trap
  }

  /** An address can be authorized once per frame: asking again for `first` traps. */
  function RequireSecondAuth(signers: set<Address>, first: Address, a: Address): Outcome<()> {
    if a == first then Trap else RequireAuth(signers, a)
  }

  // ---- shared checks -----------------------------------------------------

  function Require(condition: bool, error: Error): Outcome<()> {
    if condition then Ok(()) else Err(error)
  }

  function Load(s: State, id: nat): Outcome<Escrow> {
    if id in s.escrows then Ok(s.escrows[id]) else Err(NotFound)
  }

  function PooledData(s: State, id: nat): Outcome<Pool> {
    if id in s.pooled then Ok(s.pooled[id]) else Err(NotPooled)
  }

  function RejectPooled(s: State, id: nat): Outcome<()> { Require(id !in s.pooled, NotSupportedForPooled) }

  function CheckFunded(e: Escrow): Outcome<()> { Require(e.status == Funded, NotFunded) }

  function CheckPooledFullyFunded(s: State, id: nat, e: Escrow): Outcome<()> {
    Require(id in s.pooled ==> e.amount == s.pooled[id].target, FundingIncomplete)
  }

  function CheckSingleCaller(e: Escrow, caller: Address): Outcome<()> {
    if caller !in e.releasers then Err(Unauthorized)
    else Require(e.threshold == 1, ThresholdNotMet)
  }

  predicate HasDuplicates(list: seq<Address>) {
    exists i, j :: 0 <= i < j < |list| && list[i] == list[j]
  }

  function CheckReleaserSet(releasers: seq<Address>, threshold: nat): Outcome<()> {
    if |releasers| > MAX_RELEASERS then Err(TooManyReleasers)
    else if threshold == 0 || threshold > |releasers| then Err(InvalidThreshold)
    else Require(!HasDuplicates(releasers), DuplicateReleaser)
  }

  /** Approvers in order: each must be a stored releaser, not seen before, and sign. */
  function ScanApprovals(e: Escrow, approvers: seq<Address>, signers: set<Address>): Outcome<()> {
    if approvers == [] then Ok(())
    else
      var before, last := approvers[..|approvers| - 1], approvers[|approvers| - 1];
      var _ :- ScanApprovals(e, before, signers);
      var _ :- Require(last in e.releasers, Unauthorized);
      var _ :- Require(last !in before, DuplicateApprover);
      RequireAuth(signers, last)
  }

  function CheckApprovals(e: Escrow, approvers: seq<Address>, signers: set<Address>): Outcome<()> {
    if |approvers| < e.threshold then Err(ThresholdNotMet) else ScanApprovals(e, approvers, signers)
  }

  /** i128 division truncates toward zero. */
  function FeeShare(amount: int, bps: nat): int {
    var scaled := amount * bps;
    if scaled >= 0 then scaled / BASIS_POINTS else -(-scaled / BASIS_POINTS)
  }

  function FeeAmount(amount: int, bps: nat): Outcome<int> {
    if InI128(amount * bps) then Ok(FeeShare(amount, bps)) else Err(InvalidFee)
  }

  function CheckedAdd(a: int, b: int): Outcome<int> {
    if InI128(a + b) then Ok(a + b) else Err(Overflow)
  }

  predicate TokenAllowed(s: State, token: Address) {
    s.allowedTokens == [] || token in s.allowedTokens
  }

  /** `transfer_in_exact`: the balance must rise by exactly `amount`. */
  function TransferIn(s: State, token: Address, payer: Address, amount: int, f: Faults): Outcome<()> {
    var rise := (if payer == Contract then 0 else amount) + f.skew;
    if f.inboundRefused || Balance(s.balances, token, payer) < amount then Trap
    else if rise != amount then Err(BalanceMismatch)
    else Require(InI128(Liability(s, token) + amount), Overflow)
  }

  // ---- deposits ----------------------------------------------------------

  function CheckFeeTerms(amount: int, recipient: Option<Address>, bps: Option<nat>): Outcome<()> {
    match (recipient, bps)
    case (None, None) => Ok(())
    case (Some(r), Some(b)) =>
      if b > MAX_FEE_BPS || r == Contract then Err(InvalidFee)
      else var _ :- FeeAmount(amount, b); Ok(())
    case _ => Err(InvalidFee)
  }

  function CheckTimes(now: nat, refundAfter: Option<nat>, releaseNotBefore: Option<nat>): Outcome<()> {
    if refundAfter.Some? && refundAfter.value <= now then Err(InvalidRefundAfter)
    else
      Require(releaseNotBefore.Some? ==>
                releaseNotBefore.value >= now
                && !(refundAfter.Some? && releaseNotBefore.value > refundAfter.value),
              InvalidReleaseNotBefore)
  }

  function RefundTo(p: CreateParams): Address {
    if p.refundTo.Some? then p.refundTo.value else p.payer
  }

  /** Everything creation rejects before it asks anybody to sign. */
  function CreateChecks(s: State, p: CreateParams): Outcome<()> {
    var _ :- Require(!s.paused, Paused);
    var _ :- Require(TokenAllowed(s, p.token), DisallowedToken);
    var _ :- Require(p.amount > 0, InvalidAmount);
    var _ :- CheckTimes(s.now, p.refundAfter, p.releaseNotBefore);
    var _ :- Require(|p.conditionRef| <= MAX_CONDITION_REF_LEN, ConditionRefTooLong);
    var _ :- CheckReleaserSet(p.releasers, p.threshold);
    var _ :- Require(RefundTo(p) != Contract, InvalidRefundTo);
    CheckFeeTerms(p.amount, p.feeRecipient, p.feeBps)
  }

  function NewEscrow(p: CreateParams): Escrow {
    Escrow(p.payer, p.payee, p.token, p.amount, p.conditionRef, Funded, p.releasers, p.threshold,
           p.refundAfter, p.notifyPayee, p.requiresAcceptance, None, RefundTo(p),
           p.releaseNotBefore, p.feeRecipient, p.feeBps)
  }

  function CreateRule(s: State, signers: set<Address>, p: CreateParams, payerAuthorized: bool, f: Faults)
    : Outcome<Move>
  {
    var _ :- CreateChecks(s, p);
    var _ :- if payerAuthorized then Ok(()) else RequireAuth(signers, p.payer);
    var _ :- if p.notifyPayee then RequireSecondAuth(signers, p.payer, p.payee) else Ok(());
    var _ :- TransferIn(s, p.token, p.payer, p.amount, f);
    Ok(Open(NewEscrow(p)))
  }

  function NewPooledEscrow(p: PoolParams): Escrow {
    Escrow(p.creator, p.payee, p.token, 0, p.conditionRef, Funded, [p.releaser], 1,
           None, false, false, None, p.creator, None, None, None)
  }

  function CreatePooledRule(s: State, signers: set<Address>, p: PoolParams): Outcome<Move> {
    var _ :- Require(!s.paused, Paused);
    var _ :- Require(TokenAllowed(s, p.token), DisallowedToken);
    var _ :- Require(p.target > 0, InvalidAmount);
    var _ :- Require(p.deadline > s.now, InvalidFundingDeadline);
    var _ :- Require(|p.conditionRef| <= MAX_CONDITION_REF_LEN, ConditionRefTooLong);
    var _ :- CheckReleaserSet([p.releaser], 1);
    var _ :- RequireAuth(signers, p.creator);
    Ok(OpenPool(NewPooledEscrow(p), Pool(p.target, p.deadline)))
  }

  function TopUpRule(s: State, signers: set<Address>, id: nat, payer: Address, amount: I128, f: Faults): Outcome<Move> {
    var _ :- Require(amount > 0, InvalidAmount);
    var _ :- Require(!s.paused, Paused);
    var _ :- RequireAuth(signers, payer);
    var e :- Load(s, id);
    var _ :- RejectPooled(s, id);
    var _ :- Require(e.payer == payer, Unauthorized);
    var _ :- CheckFunded(e);
    var updated :- CheckedAdd(e.amount, amount);
    var _ :- if e.feeBps.Some? then FeeAmount(updated, e.feeBps.value) else Ok(0);
    var _ :- TransferIn(s, e.token, payer, amount, f);
    Ok(TopUp(id, amount))
  }

  function RecordOf(s: State, id: nat, who: Address): Contribution {
    if (id, who) in s.contributions then s.contributions[(id, who)] else Contribution(0, false)
  }

  function ContributeRule(s: State, signers: set<Address>, id: nat, payer: Address, amount: I128, f: Faults): Outcome<Move> {
    var _ :- Require(amount > 0, InvalidAmount);
    var _ :- Require(!s.paused, Paused);
    var e :- Load(s, id);
    var pool :- PooledData(s, id);
    var _ :- CheckFunded(e);
    var _ :- Require(s.now < pool.deadline, FundingDeadlinePassed);
    var remaining :- CheckedAdd(pool.target, -e.amount);
    var _ :- Require(amount <= remaining, FundingTargetReached);
    var _ :- RequireAuth(signers, payer);
    var _ :- TransferIn(s, e.token, payer, amount, f);
    var _ :- CheckedAdd(RecordOf(s, id, payer).amount, amount);
    var _ :- CheckedAdd(e.amount, amount);
    Ok(Contribute(id, payer, amount))
  }

  // ---- record edits ------------------------------------------------------

  function AcceptRule(s: State, signers: set<Address>, id: nat, payee: Address): Outcome<Move> {
    var _ :- RequireAuth(signers, payee);
    var e :- Load(s, id);
    var _ :- Require(e.payee == payee, Unauthorized);
    var _ :- CheckFunded(e);
    var _ :- Require(e.requiresAcceptance, AcceptanceNotConfigured);
    var _ :- Require(e.acceptedAt.None?, AlreadyAccepted);
    Ok(Accept(id))
  }

  function RotateRule(s: State, signers: set<Address>, id: nat, caller: Address, releaser: Address): Outcome<Move> {
    var _ :- RequireAuth(signers, caller);
    var e :- Load(s, id);
    var _ :- Require(e.threshold == 1, ThresholdNotMet);
    var _ :- Require(e.releasers != [], InvalidReleaser);
    var _ :- Require(caller == e.releasers[0], Unauthorized);
    var _ :- CheckFunded(e);
    var _ :- Require(releaser != Contract && releaser != e.payee, InvalidReleaser);
    var _ :- RequireSecondAuth(signers, caller, e.payer);
    Ok(Rotate(id, releaser))
  }

  function TransferPayeeRule(s: State, signers: set<Address>, id: nat, current: Address, next: Address): Outcome<Move> {
    var _ :- RequireAuth(signers, current);
    var e :- Load(s, id);
    var _ :- Require(current == e.payee, Unauthorized);
    var _ :- CheckFunded(e);
    var _ :- Require(next != Contract && next != e.payer, InvalidNewPayee);
    Ok(Redirect(id, next))
  }

  function PauseRule(s: State, signers: set<Address>, caller: Address, flag: bool): Outcome<Move> {
    var _ :- RequireAuth(signers, caller);
    var _ :- Require(caller == s.pauseAdmin, Unauthorized);
    var _ :- Require(s.paused != flag, if flag then AlreadyPaused else NotPaused);
    Ok(SetPaused(flag))
  }

  // ---- settlement --------------------------------------------------------

  /** The fee a settlement takes: a share of `amount` on release, nothing otherwise. */
  function Fee(e: Escrow, settled: Status): int {
    if settled == Released && e.feeRecipient.Some? && e.feeBps.Some?
    then FeeShare(e.amount, e.feeBps.value) else 0
  }

  function Destination(e: Escrow, settled: Status): Address {
    if settled == Released then e.payee else e.refundTo
  }

  /** Token ledgers after the fee transfer, which is skipped when the fee is zero. */
  function PayFee(b: Balances, e: Escrow, settled: Status): Balances {
    if Fee(e, settled) > 0 && e.feeRecipient.Some?
    then Transfer(b, e.token, Contract, e.feeRecipient.value, Fee(e, settled)) else b
  }

  function PayOut(b: Balances, e: Escrow, settled: Status): Balances {
    Transfer(PayFee(b, e, settled), e.token, Contract, Destination(e, settled), e.amount - Fee(e, settled))
  }

  /** What `settle` rejects before it writes anything. */
  function ReleaseGates(s: State, e: Escrow): Outcome<()> {
    var _ :- Require(e.releaseNotBefore.Some? ==> s.now >= e.releaseNotBefore.value, ReleaseTooEarly);
    Require(e.requiresAcceptance ==> e.acceptedAt.Some?, AcceptanceRequired)
  }

  /** How the outbound calls of a settlement end. */
  function Deliver(s: State, e: Escrow, settled: Status, f: Faults): Outcome<()> {
    var fee := Fee(e, settled);
    var failed := if settled == Released then Err(Undeliverable) else Trap;
    if fee > 0 && (f.feeFails || Balance(s.balances, e.token, Contract) < fee) then failed
    else if f.payoutFails || Balance(PayFee(s.balances, e, settled), e.token, Contract) < e.amount - fee then failed
    else if settled == Released && e.notifyPayee && f.callbackFails then Err(CallbackFailed)
    else Ok(())
  }

  /** The fee of a settlement, once its gates are open. */
  function SettleFee(s: State, e: Escrow, settled: Status): Outcome<int> {
    if settled != Released then Ok(0)
    else
      var _ :- ReleaseGates(s, e);
      if e.feeRecipient.Some? && e.feeBps.Some? then FeeAmount(e.amount, e.feeBps.value) else Ok(0)
  }

  function SettleRule(s: State, id: nat, e: Escrow, settled: Status, byPayee: bool, f: Faults): Outcome<Move> {
    var _ :- SettleFee(s, e, settled);
    var owed := Liability(s, e.token) - e.amount;
    var _ :- Require(InI128(owed) && owed >= 0, Overflow);
    var _ :- Deliver(s, e, settled, f);
    Ok(Settle(id, settled, byPayee))
  }

  function ReleaseChecks(s: State, id: nat, caller: Address): Outcome<Escrow> {
    var e :- Load(s, id);
    var _ :- CheckSingleCaller(e, caller);
    var _ :- CheckFunded(e);
    var _ :- CheckPooledFullyFunded(s, id, e);
    Ok(e)
  }

  predicate TimedOut(s: State, e: Escrow) { e.refundAfter.Some? && s.now >= e.refundAfter.value }

  function RefundChecks(s: State, id: nat, caller: Address): Outcome<Escrow> {
    var e :- Load(s, id);
    var _ :- RejectPooled(s, id);
    var _ :- if TimedOut(s, e) then Ok(()) else CheckSingleCaller(e, caller);
    var _ :- CheckFunded(e);
    Ok(e)
  }

  function ReleaseRule(s: State, signers: set<Address>, id: nat, caller: Address, f: Faults): Outcome<Move> {
    var _ :- RequireAuth(signers, caller);
    var e :- ReleaseChecks(s, id, caller);
    SettleRule(s, id, e, Released, false, f)
  }

  function ReleaseWithApprovalsRule(s: State, signers: set<Address>, id: nat, approvers: seq<Address>, f: Faults): Outcome<Move> {
    var e :- Load(s, id);
    var _ :- CheckApprovals(e, approvers, signers);
    var _ :- CheckFunded(e);
    var _ :- CheckPooledFullyFunded(s, id, e);
    SettleRule(s, id, e, Released, false, f)
  }

  function RefundRule(s: State, signers: set<Address>, id: nat, caller: Address, f: Faults): Outcome<Move> {
    var _ :- RequireAuth(signers, caller);
    var e :- Load(s, id);
    if caller == e.payee then
      var _ :- RejectPooled(s, id);
      var _ :- CheckFunded(e);
      SettleRule(s, id, e, Refunded, true, f)
    else
      var _ :- RefundChecks(s, id, caller);
      SettleRule(s, id, e, Refunded, false, f)
  }

  function RefundWithApprovalsRule(s: State, signers: set<Address>, id: nat, approvers: seq<Address>, f: Faults): Outcome<Move> {
    var e :- Load(s, id);
    var _ :- RejectPooled(s, id);
    var _ :- CheckApprovals(e, approvers, signers);
    var _ :- CheckFunded(e);
    SettleRule(s, id, e, Refunded, false, f)
  }

  function CancelRule(s: State, signers: set<Address>, id: nat, payer: Address, f: Faults): Outcome<Move> {
    var _ :- RequireAuth(signers, payer);
    var e :- Load(s, id);
    var _ :- RejectPooled(s, id);
    var _ :- Require(payer == e.payer, Unauthorized);
    var _ :- CheckFunded(e);
    var _ :- Require(e.requiresAcceptance, AcceptanceNotConfigured);
    var _ :- Require(e.acceptedAt.None?, AlreadyAccepted);
    SettleRule(s, id, e, Cancelled, false, f)
  }

  function ClaimRule(s: State, signers: set<Address>, id: nat, who: Address, f: Faults): Outcome<Move> {
    var _ :- RequireAuth(signers, who);
    var e :- Load(s, id);
    var pool :- PooledData(s, id);
    var _ :- CheckFunded(e);
    var _ :- Require(s.now >= pool.deadline, RefundNotOpen);
    var _ :- Require(e.amount < pool.target, FundingTargetReached);
    var _ :- Require((id, who) in s.contributions, NoContribution);
    var c := s.contributions[(id, who)];
    var _ :- Require(!c.refunded, AlreadyRefunded);
    var _ :- CheckedAdd(e.amount, -c.amount);
    var owed := Liability(s, e.token) - c.amount;
    var _ :- Require(InI128(owed) && owed >= 0, Overflow);
    if f.payoutFails || Balance(s.balances, e.token, Contract) < c.amount then Trap
    else Ok(Claim(id, who))
  }

  /**
   * One `settle_many` operation. `Err` is a rejection made before any write; an
   * error after the writes began panics and takes the whole batch with it.
   */
  datatype SettleAction = DoRelease | DoRefund

  function SettleOneRule(s: State, id: nat, caller: Address, action: SettleAction, f: Faults): Outcome<Move> {
    match action
    case DoRelease =>
      var e :- ReleaseChecks(s, id, caller);
      var _ :- ReleaseGates(s, e);
      (match SettleRule(s, id, e, Released, false, f) case Err(_) => Trap case r => r)
    case DoRefund =>
      var e :- RefundChecks(s, id, caller);
      (match SettleRule(s, id, e, Refunded, false, f) case Err(_) => Trap case r => r)
  }
}
