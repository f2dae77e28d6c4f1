// What each call needs and what it does, said in terms of storage, signers and
// balances alone: when it succeeds, the whole state it leaves, and what every
// refusal tells the caller.
module EscrowCalls {
  import opened Prelude
  import opened EscrowTypes
  import opened EscrowRules
  import opened EscrowMoves
  import opened EscrowSafety
  import opened EscrowRuns
  import opened EscrowSuccess

  // ---- when a call succeeds ----------------------------------------------

  /** The address signed; the contract's own address never does. */
  predicate Signed(signers: set<Address>, a: Address) { a in signers && a != Contract }

  predicate AllDistinct(list: seq<Address>) { forall i, j :: 0 <= i < j < |list| ==> list[i] != list[j] }

  /** The token delivers exactly `amount` from `from`. */
  predicate Arrives(s: State, token: Address, from: Address, amount: int, f: Faults) {
    !f.inboundRefused && f.skew == 0 && Balance(s.balances, token, from) >= amount
  }

  predicate TokenListed(s: State, token: Address) { s.allowedTokens == [] || token in s.allowedTokens }

  predicate GoodTimes(now: nat, refundAfter: Option<nat>, releaseNotBefore: Option<nat>) {
    && (refundAfter.Some? ==> refundAfter.value > now)
    && (releaseNotBefore.Some? ==> releaseNotBefore.value >= now)
    && (refundAfter.Some? && releaseNotBefore.Some? ==> releaseNotBefore.value <= refundAfter.value)
  }

  /** No fee, or a recipient other than the contract with a rate of at most a tenth that fits i128. */
  predicate GoodFee(amount: int, recipient: Option<Address>, bps: Option<nat>) {
    || (recipient == None && bps == None)
    || (recipient.Some? && bps.Some? && recipient.value != Contract && bps.value <= 1000
        && amount * bps.value <= 170141183460469231731687303715884105727)
  }

  predicate CreateAllowed(s: State, signers: set<Address>, p: CreateParams, f: Faults) {
    && !s.paused && TokenListed(s, p.token) && p.amount > 0
    && GoodTimes(s.now, p.refundAfter, p.releaseNotBefore)
    && |p.conditionRef| <= 64
    && |p.releasers| <= 10 && 1 <= p.threshold <= |p.releasers| && AllDistinct(p.releasers)
    && p.refundTo != Some(Contract)
    && GoodFee(p.amount, p.feeRecipient, p.feeBps)
    && Signed(signers, p.payer)
    && (p.notifyPayee ==> Signed(signers, p.payee) && p.payee != p.payer)
    && Arrives(s, p.token, p.payer, p.amount, f)
  }

  predicate PoolAllowed(s: State, signers: set<Address>, p: PoolParams) {
    && !s.paused && TokenListed(s, p.token) && p.target > 0 && p.deadline > s.now
    && |p.conditionRef| <= 64 && Signed(signers, p.creator)
  }

  predicate TopUpAllowed(s: State, signers: set<Address>, id: nat, payer: Address, amount: int, f: Faults) {
    && amount > 0 && !s.paused && Signed(signers, payer)
    && id in s.escrows && id !in s.pooled
    && var e := s.escrows[id];
    && e.status == Funded && payer == e.payer
    && e.amount + amount <= 170141183460469231731687303715884105727
    && (e.feeBps.Some? ==> (e.amount + amount) * e.feeBps.value <= 170141183460469231731687303715884105727)
    && Arrives(s, e.token, payer, amount, f)
  }

  /** The last admissible contribution is the one that reaches the target. */
  predicate ContributeAllowed(s: State, signers: set<Address>, id: nat, payer: Address, amount: int, f: Faults) {
    && amount > 0 && !s.paused && Signed(signers, payer)
    && id in s.escrows && id in s.pooled
    && var e, pool := s.escrows[id], s.pooled[id];
    && e.status == Funded && s.now < pool.deadline && e.amount + amount <= pool.target
    && Arrives(s, e.token, payer, amount, f)
  }

  predicate ClaimAllowed(s: State, signers: set<Address>, id: nat, who: Address, f: Faults) {
    && Signed(signers, who) && id in s.escrows && id in s.pooled && (id, who) in s.contributions
    && s.escrows[id].status == Funded && s.now >= s.pooled[id].deadline && s.escrows[id].amount < s.pooled[id].target
    && !s.contributions[(id, who)].refunded && !f.payoutFails
  }

  predicate AcceptAllowed(s: State, signers: set<Address>, id: nat, payee: Address) {
    && Signed(signers, payee) && id in s.escrows
    && var e := s.escrows[id];
    && e.status == Funded && payee == e.payee && e.requiresAcceptance && e.acceptedAt == None
  }

  predicate RotateAllowed(s: State, signers: set<Address>, id: nat, caller: Address, releaser: Address) {
    && Signed(signers, caller) && id in s.escrows
    && var e := s.escrows[id];
    && e.status == Funded && e.threshold == 1 && e.releasers != [] && caller == e.releasers[0]
    && releaser != Contract && releaser != e.payee
    && Signed(signers, e.payer) && e.payer != caller
  }

  predicate TransferAllowed(s: State, signers: set<Address>, id: nat, current: Address, next: Address) {
    && Signed(signers, current) && id in s.escrows
    && var e := s.escrows[id];
    && e.status == Funded && current == e.payee && next != Contract && next != e.payer
  }

  predicate PauseAllowed(s: State, signers: set<Address>, caller: Address, flag: bool) {
    Signed(signers, caller) && caller == s.pauseAdmin && s.paused != flag
  }

  /** The protocol fee of a release: floor(amount * bps / 10000). */
  function FeeOf(e: Escrow): int { if e.feeBps.Some? then e.amount * e.feeBps.value / 10000 else 0 }

  /** A funded escrow whose release time, acceptance and funding target are met, and that can be paid out. */
  predicate Releasable(s: State, id: nat, f: Faults) {
    && id in s.escrows
    && var e := s.escrows[id];
    && e.status == Funded
    && (id in s.pooled ==> e.amount == s.pooled[id].target)
    && (e.releaseNotBefore.Some? ==> s.now >= e.releaseNotBefore.value)
    && (e.requiresAcceptance ==> e.acceptedAt.Some?)
    && !(FeeOf(e) > 0 && f.feeFails) && !f.payoutFails && !(e.notifyPayee && f.callbackFails)
  }

  predicate Returnable(s: State, id: nat, f: Faults) {
    id in s.escrows && id !in s.pooled && s.escrows[id].status == Funded && !f.payoutFails
  }

  predicate LoneReleaser(e: Escrow, caller: Address) { caller in e.releasers && e.threshold == 1 }

  predicate Expired(s: State, e: Escrow) { e.refundAfter.Some? && e.refundAfter.value <= s.now }

  /** Enough distinct stored releasers, all of whom signed. */
  predicate Approved(e: Escrow, approvers: seq<Address>, signers: set<Address>) {
    && |approvers| >= e.threshold && AllDistinct(approvers)
    && forall i :: 0 <= i < |approvers| ==> approvers[i] in e.releasers && Signed(signers, approvers[i])
  }

  predicate Admissible(s: State, signers: set<Address>, call: Call, f: Faults) {
    match call
    case CreateEscrow(p) => CreateAllowed(s, signers, p, f)
    case CreatePooledEscrow(p) => PoolAllowed(s, signers, p)
    case TopUpEscrow(id, caller, amount) => TopUpAllowed(s, signers, id, caller, amount, f)
    case ContributeTo(id, caller, amount) => ContributeAllowed(s, signers, id, caller, amount, f)
    case ClaimRefund(id, caller) => ClaimAllowed(s, signers, id, caller, f)
    case AcceptEscrow(id, caller) => AcceptAllowed(s, signers, id, caller)
    case RotateReleaser(id, caller, releaser) => RotateAllowed(s, signers, id, caller, releaser)
    case TransferPayee(id, caller, payee) => TransferAllowed(s, signers, id, caller, payee)
    case Release(id, caller) =>
      Signed(signers, caller) && Releasable(s, id, f) && LoneReleaser(s.escrows[id], caller)
    case ReleaseWithApprovals(id, approvers) => Releasable(s, id, f) && Approved(s.escrows[id], approvers, signers)
    case Refund(id, caller) =>
      && Signed(signers, caller) && Returnable(s, id, f)
      && var e := s.escrows[id];
      (caller == e.payee || Expired(s, e) || LoneReleaser(e, caller))
    case RefundWithApprovals(id, approvers) => Returnable(s, id, f) && Approved(s.escrows[id], approvers, signers)
    case CancelEscrow(id, caller) =>
      && Signed(signers, caller) && Returnable(s, id, f)
      && var e := s.escrows[id];
      caller == e.payer && e.requiresAcceptance && e.acceptedAt == None
    case SwitchPause(caller, flag) => PauseAllowed(s, signers, caller, flag)
  }

  // ---- what a call does --------------------------------------------------

  /** The contract receives `amount` of `token` from `from`; no other balance changes. */
  ghost predicate PaidIn(b: Balances, b': Balances, token: Address, from: Address, amount: int) {
    forall t: Address, x: Address ::
      Balance(b', t, x) == Balance(b, t, x) + (if t == token && x == Contract then amount else 0)
                                            - (if t == token && x == from then amount else 0)
  }

  /** The contract pays `amount` of `token` to `to`; no other balance changes. */
  ghost predicate PaidOut(b: Balances, b': Balances, token: Address, to: Address, amount: int) {
    forall t: Address, x: Address ::
      Balance(b', t, x) == Balance(b, t, x) + (if t == token && x == to then amount else 0)
                                            - (if t == token && x == Contract then amount else 0)
  }

  /** The payee receives the amount less the fee, the fee recipient the fee; no other balance changes. */
  ghost predicate PaidPayee(b: Balances, b': Balances, e: Escrow) {
    forall t: Address, x: Address ::
      Balance(b', t, x) == Balance(b, t, x) + (if t == e.token && x == e.payee then e.amount - FeeOf(e) else 0)
                                            + (if t == e.token && e.feeRecipient == Some(x) then FeeOf(e) else 0)
                                            - (if t == e.token && x == Contract then e.amount else 0)
  }

  /** The counter of `token` moves by `delta`; no other does. */
  ghost predicate CounterMoved(l: map<Address, int>, l': map<Address, int>, token: Address, delta: int) {
    forall t: Address :: Owing(l', t) == Owing(l, t) + if t == token then delta else 0
  }

  /** The record says what the caller asked for, field by field. */
  ghost predicate AsAsked(e: Escrow, p: CreateParams) {
    && e.payer == p.payer && e.payee == p.payee && e.token == p.token && e.amount == p.amount
    && e.conditionRef == p.conditionRef && e.releasers == p.releasers && e.threshold == p.threshold
    && e.refundAfter == p.refundAfter && e.releaseNotBefore == p.releaseNotBefore
    && e.notifyPayee == p.notifyPayee && e.requiresAcceptance == p.requiresAcceptance
    && e.feeRecipient == p.feeRecipient && e.feeBps == p.feeBps
    && (p.refundTo.Some? ==> e.refundTo == p.refundTo.value) && (p.refundTo.None? ==> e.refundTo == p.payer)
    && e.status == Funded && e.acceptedAt == None
  }

  ghost predicate PooledAsAsked(e: Escrow, p: PoolParams) {
    && e.payer == p.creator && e.payee == p.payee && e.token == p.token && e.amount == 0
    && e.conditionRef == p.conditionRef && e.releasers == [p.releaser] && e.threshold == 1
    && e.refundAfter == None && e.releaseNotBefore == None && !e.notifyPayee && !e.requiresAcceptance
    && e.feeRecipient == None && e.feeBps == None && e.refundTo == p.creator
    && e.status == Funded && e.acceptedAt == None
  }

  /** A creation stores the next id's record and takes the amount in. */
  ghost predicate DidCreate(s: State, t: State, p: CreateParams) {
    && s.nextId in t.escrows
    && var id, e := s.nextId, t.escrows[s.nextId];
    && AsAsked(e, p)
    && t == s.(escrows := s.escrows[id := e], status := s.status[id := Funded], nextId := id + 1,
               liability := t.liability, balances := t.balances, events := s.events + [Lifecycle(ActCreated, id, e)])
    && CounterMoved(s.liability, t.liability, p.token, p.amount)
    && PaidIn(s.balances, t.balances, p.token, p.payer, p.amount)
  }

  ghost predicate DidPool(s: State, t: State, p: PoolParams) {
    && s.nextId in t.escrows
    && var id, e := s.nextId, t.escrows[s.nextId];
    && PooledAsAsked(e, p)
    && t == s.(escrows := s.escrows[id := e], status := s.status[id := Funded], nextId := id + 1,
               pooled := s.pooled[id := Pool(p.target, p.deadline)], events := s.events + [Lifecycle(ActCreated, id, e)])
  }

  ghost predicate DidDeposit(s: State, t: State, id: nat, from: Address, amount: int, contributions: Contributions, event: Event)
    requires id in s.escrows
  {
    var e := s.escrows[id];
    && t == s.(escrows := s.escrows[id := e.(amount := e.amount + amount)], contributions := contributions,
               liability := t.liability, balances := t.balances, events := s.events + [event])
    && CounterMoved(s.liability, t.liability, e.token, amount)
    && PaidIn(s.balances, t.balances, e.token, from, amount)
  }

  /** What `who` has given to pool `id` so far, counting this contribution. */
  ghost predicate Accumulates(s: State, contributions: Contributions, id: nat, who: Address, amount: int) {
    var k := (id, who);
    if k in s.contributions then contributions == s.contributions[k := s.contributions[k].(amount := s.contributions[k].amount + amount)]
    else contributions == s.contributions[k := Contribution(amount, false)]
  }

  ghost predicate DidClaim(s: State, t: State, id: nat, who: Address)
    requires id in s.escrows && (id, who) in s.contributions
  {
    var e, c := s.escrows[id], s.contributions[(id, who)];
    && t == s.(escrows := s.escrows[id := e.(amount := e.amount - c.amount)],
               contributions := s.contributions[(id, who) := Contribution(c.amount, true)],
               liability := t.liability, balances := t.balances, events := s.events + [ClaimedEvent(id, who, c.amount)])
    && CounterMoved(s.liability, t.liability, e.token, -c.amount)
    && PaidOut(s.balances, t.balances, e.token, who, c.amount)
  }

  ghost predicate DidEdit(s: State, t: State, id: nat, e: Escrow, event: Event) {
    t == s.(escrows := s.escrows[id := e], events := s.events + [event])
  }

  ghost predicate Settles(s: State, t: State, id: nat, settled: Status, events: seq<Event>)
    requires id in s.escrows
  {
    var e := s.escrows[id];
    && t == s.(escrows := s.escrows[id := e.(status := settled)], status := s.status[id := settled],
               liability := t.liability, balances := t.balances, events := s.events + events)
    && CounterMoved(s.liability, t.liability, e.token, -e.amount)
  }

  /** Released: the payee and the fee recipient are paid. */
  ghost predicate DidRelease(s: State, t: State, id: nat) {
    && id in s.escrows
    && var e := s.escrows[id];
    && Settles(s, t, id, Released, [Lifecycle(ActReleased, id, e.(status := Released))])
    && PaidPayee(s.balances, t.balances, e)
  }

  /** Refunded or cancelled: everything goes to `refundTo`. */
  ghost predicate DidReturn(s: State, t: State, id: nat, settled: Status, action: Action, more: seq<Event>) {
    && id in s.escrows
    && var e := s.escrows[id];
    && Settles(s, t, id, settled, [Lifecycle(action, id, e.(status := settled))] + more)
    && PaidOut(s.balances, t.balances, e.token, e.refundTo, e.amount)
  }

  /** The whole state a successful call leaves. */
  ghost predicate Did(s: State, call: Call, t: State) {
    match call
    case CreateEscrow(p) => DidCreate(s, t, p)
    case CreatePooledEscrow(p) => DidPool(s, t, p)
    case TopUpEscrow(id, caller, amount) =>
      id in s.escrows
      && DidDeposit(s, t, id, caller, amount, s.contributions, ToppedUpEvent(id, amount, s.escrows[id].amount + amount))
    case ContributeTo(id, caller, amount) =>
      && id in s.escrows
      && DidDeposit(s, t, id, caller, amount, t.contributions, ContributedEvent(id, caller, amount, s.escrows[id].amount + amount))
      && Accumulates(s, t.contributions, id, caller, amount)
    case ClaimRefund(id, caller) => id in s.escrows && (id, caller) in s.contributions && DidClaim(s, t, id, caller)
    case AcceptEscrow(id, caller) =>
      id in s.escrows && DidEdit(s, t, id, s.escrows[id].(acceptedAt := Some(s.now)), AcceptedEvent(id, caller, s.now))
    case RotateReleaser(id, caller, releaser) =>
      id in s.escrows && DidEdit(s, t, id, s.escrows[id].(releasers := [releaser]), RotatedEvent(id, caller, releaser))
    case TransferPayee(id, caller, payee) =>
      id in s.escrows && DidEdit(s, t, id, s.escrows[id].(payee := payee), PayeeMovedEvent(id, caller, payee))
    case Release(id, _) => DidRelease(s, t, id)
    case ReleaseWithApprovals(id, _) => DidRelease(s, t, id)
    case Refund(id, caller) =>
      && id in s.escrows
      && var e := s.escrows[id];
      DidReturn(s, t, id, Refunded, ActRefunded, if caller == e.payee then [PayeeRefundedEvent(id, e.payer, e.payee, e.amount)] else [])
    case RefundWithApprovals(id, _) => DidReturn(s, t, id, Refunded, ActRefunded, [])
    case CancelEscrow(id, _) => DidReturn(s, t, id, Cancelled, ActCancelled, [])
    case SwitchPause(caller, flag) =>
      t == s.(paused := flag, events := s.events + [if flag then PausedEvent(caller) else UnpausedEvent(caller)])
  }

  // ---- success, call by call ---------------------------------------------

  lemma CreateSucceeds(s: State, signers: set<Address>, p: CreateParams, f: Faults)
    requires Inv(s)
    ensures CreateRule(s, signers, p, false, f).Ok? <==> CreateAllowed(s, signers, p, f)
    ensures CreateRule(s, signers, p, false, f).Ok? ==> CreateRule(s, signers, p, false, f).value == Open(NewEscrow(p))
  {
    hide Inv, TransferIn;
    if p.payer != Contract && p.amount > 0 { TransferInOutcome(s, p.token, p.payer, p.amount, f); }
  }

  lemma PoolSucceeds(s: State, signers: set<Address>, p: PoolParams)
    ensures CreatePooledRule(s, signers, p).Ok? <==> PoolAllowed(s, signers, p)
    ensures CreatePooledRule(s, signers, p).Ok? ==>
              CreatePooledRule(s, signers, p).value == OpenPool(NewPooledEscrow(p), Pool(p.target, p.deadline))
  {
  }

  lemma TopUpSucceeds(s: State, signers: set<Address>, id: nat, payer: Address, amount: I128, f: Faults)
    requires Inv(s)
    ensures TopUpRule(s, signers, id, payer, amount, f).Ok? <==> TopUpAllowed(s, signers, id, payer, amount, f)
    ensures TopUpRule(s, signers, id, payer, amount, f).Ok? ==>
              TopUpRule(s, signers, id, payer, amount, f).value == TopUp(id, amount)
  {
    hide Inv, TransferIn, FeeShare;
    if amount > 0 && payer != Contract && id in s.escrows {
      TransferInOutcome(s, s.escrows[id].token, payer, amount, f);
      RecordFacts(s, id);
    }
  }

  lemma ContributeSucceeds(s: State, signers: set<Address>, id: nat, payer: Address, amount: I128, f: Faults)
    requires Inv(s)
    ensures ContributeRule(s, signers, id, payer, amount, f).Ok? <==> ContributeAllowed(s, signers, id, payer, amount, f)
    ensures ContributeRule(s, signers, id, payer, amount, f).Ok? ==>
              ContributeRule(s, signers, id, payer, amount, f).value == Contribute(id, payer, amount)
  {
    hide Inv, TransferIn;
    ContributeNeverOverflows(s, signers, id, payer, amount, f);
    if id in s.escrows && id in s.pooled {
      PoolRecordRange(s, id);
      if amount > 0 && payer != Contract { TransferInOutcome(s, s.escrows[id].token, payer, amount, f); }
    }
  }

  lemma EditsSucceed(s: State, signers: set<Address>, id: nat, caller: Address, to: Address)
    ensures AcceptRule(s, signers, id, caller).Ok? <==> AcceptAllowed(s, signers, id, caller)
    ensures RotateRule(s, signers, id, caller, to).Ok? <==> RotateAllowed(s, signers, id, caller, to)
    ensures TransferPayeeRule(s, signers, id, caller, to).Ok? <==> TransferAllowed(s, signers, id, caller, to)
  {
  }

  lemma PauseSucceeds(s: State, signers: set<Address>, caller: Address, flag: bool)
    ensures PauseRule(s, signers, caller, flag).Ok? <==> PauseAllowed(s, signers, caller, flag)
  {
  }

  /** The fee the rules take is the floored share, and their delivery condition the one stated here. */
  lemma FeeIsFloor(s: State, id: nat)
    requires Inv(s) && id in s.escrows
    ensures Fee(s.escrows[id], Released) == FeeOf(s.escrows[id])
    ensures Fee(s.escrows[id], Refunded) == Fee(s.escrows[id], Cancelled) == 0
    ensures s.escrows[id].feeRecipient.Some? <==> s.escrows[id].feeBps.Some?
  {
    RecordFacts(s, id);
    if s.escrows[id].feeBps.Some? { ShareBound(s.escrows[id].amount, s.escrows[id].feeBps.value); }
  }

  lemma SettlementSucceeds(s: State, signers: set<Address>, call: Call, f: Faults)
    requires Inv(s)
    requires call.Release? || call.ReleaseWithApprovals? || call.Refund? || call.RefundWithApprovals? || call.CancelEscrow?
    ensures Rule(s, signers, call, f).Ok? <==> Admissible(s, signers, call, f)
    ensures Rule(s, signers, call, f).Ok? ==>
              call.id in s.escrows
              && Rule(s, signers, call, f).value
                 == if call.Release? || call.ReleaseWithApprovals? then Settle(call.id, Released, false)
                    else if call.CancelEscrow? then Settle(call.id, Cancelled, false)
                    else Settle(call.id, Refunded, call.Refund? && call.caller == s.escrows[call.id].payee)
  {
    hide Inv, ReleaseRule, ReleaseWithApprovalsRule, RefundRule, RefundWithApprovalsRule, CancelRule, Fee, FeeOf;
    if call.id in s.escrows { FeeIsFloor(s, call.id); }
    match call
    case Release(id, caller) => ReleaseSucceeds(s, signers, id, caller, f);
    case ReleaseWithApprovals(id, approvers) =>
      ReleaseWithApprovalsSucceeds(s, signers, id, approvers, f);
      ApprovedReleaseMoves(s, signers, id, approvers, f);
    case Refund(id, caller) => RefundSucceeds(s, signers, id, caller, f);
    case RefundWithApprovals(id, approvers) => RefundWithApprovalsSucceeds(s, signers, id, approvers, f);
    case CancelEscrow(id, payer) => CancelSucceeds(s, signers, id, payer, f);
  }

  lemma ApprovedReleaseMoves(s: State, signers: set<Address>, id: nat, approvers: seq<Address>, f: Faults)
    ensures ReleaseWithApprovalsRule(s, signers, id, approvers, f).Ok? ==>
              ReleaseWithApprovalsRule(s, signers, id, approvers, f).value == Settle(id, Released, false)
  {
    hide CheckApprovals, Deliver;
  }

  // ---- effect, call by call ----------------------------------------------

  lemma CreationDoes(s: State, p: CreateParams)
    requires p.payer != Contract
    ensures DidCreate(s, After(s, Open(NewEscrow(p))), p)
  {
    hide Balance, Transfer;
    TransferAt(s.balances, p.token, p.payer, Contract, p.amount);
  }

  lemma PoolCreationDoes(s: State, p: PoolParams)
    ensures DidPool(s, After(s, OpenPool(NewPooledEscrow(p), Pool(p.target, p.deadline))), p)
  {
  }

  lemma TopUpDoes(s: State, id: nat, amount: int)
    requires id in s.escrows
    ensures var e := s.escrows[id];
            DidDeposit(s, After(s, TopUp(id, amount)), id, e.payer, amount, s.contributions,
                       ToppedUpEvent(id, amount, e.amount + amount))
  {
    hide Balance, Transfer;
    TransferAt(s.balances, s.escrows[id].token, s.escrows[id].payer, Contract, amount);
  }

  lemma ContributionDoes(s: State, id: nat, who: Address, amount: int)
    requires id in s.escrows
    ensures var t := After(s, Contribute(id, who, amount));
            && DidDeposit(s, t, id, who, amount, t.contributions, ContributedEvent(id, who, amount, s.escrows[id].amount + amount))
            && Accumulates(s, t.contributions, id, who, amount)
  {
    hide Balance, Transfer;
    TransferAt(s.balances, s.escrows[id].token, who, Contract, amount);
  }

  lemma ClaimDoes(s: State, id: nat, who: Address)
    requires id in s.escrows && (id, who) in s.contributions
    ensures DidClaim(s, After(s, Claim(id, who)), id, who)
  {
    hide Balance, Transfer;
    TransferAt(s.balances, s.escrows[id].token, Contract, who, s.contributions[(id, who)].amount);
  }

  lemma ReleaseDoes(s: State, id: nat)
    requires Inv(s) && id in s.escrows
    ensures DidRelease(s, After(s, Settle(id, Released, false)), id)
  {
    hide Inv, Balance, PayOut, Fee, FeeOf, PaidPayee;
    FeeIsFloor(s, id);
    RecordFacts(s, id);
    PayeePaid(s.balances, s.escrows[id]);
  }

  lemma ReturnDoes(s: State, id: nat, byPayee: bool)
    requires Inv(s) && id in s.escrows
    ensures var e := s.escrows[id];
            DidReturn(s, After(s, Settle(id, Refunded, byPayee)), id, Refunded, ActRefunded,
                      if byPayee then [PayeeRefundedEvent(id, e.payer, e.payee, e.amount)] else [])
    ensures DidReturn(s, After(s, Settle(id, Cancelled, false)), id, Cancelled, ActCancelled, [])
  {
    hide Inv, Balance, PayOut, Fee, FeeOf, PaidOut;
    FeeIsFloor(s, id);
    RefundPaid(s.balances, s.escrows[id]);
  }

  lemma PayeePaid(b: Balances, e: Escrow)
    requires WellFormed(e) && Fee(e, Released) == FeeOf(e)
    ensures PaidPayee(b, PayOut(b, e, Released), e)
  {
    hide Balance, PayOut, Fee, Supply, HasDuplicates;
    FeeBound(e, Released);
    PayOutAt(b, e, Released);
  }

  lemma RefundPaid(b: Balances, e: Escrow)
    requires Fee(e, Refunded) == Fee(e, Cancelled) == 0
    ensures PaidOut(b, PayOut(b, e, Refunded), e.token, e.refundTo, e.amount)
    ensures PaidOut(b, PayOut(b, e, Cancelled), e.token, e.refundTo, e.amount)
  {
    hide Balance, PayOut, Fee, Supply;
    PayOutAt(b, e, Refunded);
    PayOutAt(b, e, Cancelled);
  }

  /** Who a settlement pays: on release the payee and the fee recipient, otherwise `refundTo`. */
  ghost predicate PaysAsDue(b: Balances, b': Balances, e: Escrow, settled: Status) {
    if settled == Released then PaidPayee(b, b', e) else PaidOut(b, b', e.token, e.refundTo, e.amount)
  }

  lemma PayOutDoes(s: State, id: nat, settled: Status)
    requires Inv(s) && id in s.escrows && settled != Funded
    ensures PaysAsDue(s.balances, PayOut(s.balances, s.escrows[id], settled), s.escrows[id], settled)
  {
    hide Inv, Balance, PayOut, Fee, FeeOf, PaidPayee, PaidOut;
    FeeIsFloor(s, id);
    RecordFacts(s, id);
    PayeePaid(s.balances, s.escrows[id]);
    RefundPaid(s.balances, s.escrows[id]);
  }

  // ---- the calls ---------------------------------------------------------

  /** A call succeeds exactly when it is admissible. */
  lemma CallSucceeds(s: State, signers: set<Address>, call: Call, f: Faults)
    requires Inv(s)
    ensures Rule(s, signers, call, f).Ok? <==> Admissible(s, signers, call, f)
  {
    hide Inv, CreateRule, CreatePooledRule, TopUpRule, ContributeRule, ClaimRule, AcceptRule, RotateRule, TransferPayeeRule,
         ReleaseRule, ReleaseWithApprovalsRule, RefundRule, RefundWithApprovalsRule, CancelRule, PauseRule;
    match call
    case CreateEscrow(p) => CreateSucceeds(s, signers, p, f);
    case CreatePooledEscrow(p) => PoolSucceeds(s, signers, p);
    case TopUpEscrow(id, caller, amount) => TopUpSucceeds(s, signers, id, caller, amount, f);
    case ContributeTo(id, caller, amount) => ContributeSucceeds(s, signers, id, caller, amount, f);
    case ClaimRefund(id, caller) => ClaimOutcome(s, signers, id, caller, f);
    case AcceptEscrow(id, caller) => EditsSucceed(s, signers, id, caller, caller);
    case RotateReleaser(id, caller, releaser) => EditsSucceed(s, signers, id, caller, releaser);
    case TransferPayee(id, caller, payee) => EditsSucceed(s, signers, id, caller, payee);
    case SwitchPause(caller, flag) => PauseSucceeds(s, signers, caller, flag);
    case _ => SettlementSucceeds(s, signers, call, f);
  }

  lemma EditMoves(s: State, signers: set<Address>, id: nat, caller: Address, to: Address)
    ensures AcceptRule(s, signers, id, caller).Ok? ==> AcceptRule(s, signers, id, caller).value == Accept(id)
    ensures RotateRule(s, signers, id, caller, to).Ok? ==> RotateRule(s, signers, id, caller, to).value == Rotate(id, to)
    ensures TransferPayeeRule(s, signers, id, caller, to).Ok? ==> TransferPayeeRule(s, signers, id, caller, to).value == Redirect(id, to)
  {
  }

  lemma EditDoes(s: State, signers: set<Address>, call: Call)
    requires call.AcceptEscrow? || call.RotateReleaser? || call.TransferPayee?
    requires Admissible(s, signers, call, NO_FAULTS)
    ensures Did(s, call, After(s, match call
                                  case AcceptEscrow(id, _) => Accept(id)
                                  case RotateReleaser(id, _, releaser) => Rotate(id, releaser)
                                  case TransferPayee(id, _, payee) => Redirect(id, payee)))
  {
  }

  lemma PauseDoes(s: State, signers: set<Address>, caller: Address, flag: bool, f: Faults)
    requires PauseRule(s, signers, caller, flag).Ok?
    ensures Did(s, SwitchPause(caller, flag), After(s, PauseRule(s, signers, caller, flag).value))
  {
  }

  lemma RuleFits(s: State, signers: set<Address>, call: Call, f: Faults)
    ensures Rule(s, signers, call, f).Ok? ==> Fits(s, Rule(s, signers, call, f).value)
  {
    hide Rule, Permitted, Fits;
    RulePermits(s, signers, call, f);
    if Rule(s, signers, call, f).Ok? { PermittedFits(s, signers, Rule(s, signers, call, f).value); }
  }

  /** A successful call leaves exactly the state described for it. */
  lemma CallDoes(s: State, signers: set<Address>, call: Call, f: Faults)
    requires Inv(s) && Rule(s, signers, call, f).Ok?
    ensures Fits(s, Rule(s, signers, call, f).value) && Did(s, call, After(s, Rule(s, signers, call, f).value))
  {
    hide Inv, CreateRule, CreatePooledRule, TopUpRule, ContributeRule, ClaimRule, AcceptRule, RotateRule, TransferPayeeRule,
         ReleaseRule, ReleaseWithApprovalsRule, RefundRule, RefundWithApprovalsRule, CancelRule, PauseRule,
         After, DidCreate, DidPool, DidDeposit, Accumulates, DidClaim, DidEdit, DidRelease, DidReturn;
    CallSucceeds(s, signers, call, f);
    RuleFits(s, signers, call, f);
    match call
    case CreateEscrow(p) => CreateSucceeds(s, signers, p, f); CreationDoes(s, p);
    case CreatePooledEscrow(p) => PoolSucceeds(s, signers, p); PoolCreationDoes(s, p);
    case TopUpEscrow(id, caller, amount) => TopUpSucceeds(s, signers, id, caller, amount, f); TopUpDoes(s, id, amount);
    case ContributeTo(id, caller, amount) => ContributeSucceeds(s, signers, id, caller, amount, f); ContributionDoes(s, id, caller, amount);
    case ClaimRefund(id, caller) => ClaimOutcome(s, signers, id, caller, f); ClaimDoes(s, id, caller);
    case AcceptEscrow(id, caller) => EditMoves(s, signers, id, caller, caller); EditDoes(s, signers, call);
    case RotateReleaser(id, caller, releaser) => EditMoves(s, signers, id, caller, releaser); EditDoes(s, signers, call);
    case TransferPayee(id, caller, payee) => EditMoves(s, signers, id, caller, payee); EditDoes(s, signers, call);
    case SwitchPause(caller, flag) => PauseDoes(s, signers, caller, flag, f);
    case _ =>
      SettlementSucceeds(s, signers, call, f);
      ReleaseDoes(s, call.id);
      ReturnDoes(s, call.id, true);
      ReturnDoes(s, call.id, false);
  }

  /**
   * One signed call, as a step of a run: it takes effect exactly when it is
   * admissible, the state it then leaves is the one described, and otherwise
   * nothing changes.
   */
  lemma CallMeaning(s: State, signers: set<Address>, call: Call, f: Faults)
    requires Inv(s)
    ensures var t := Take(s, Invoke(signers, Single(call), [f]));
            if Admissible(s, signers, call, f) then Did(s, call, t) else t == s
  {
    hide Inv, Rule, Admissible, Did, After, Fits;
    CallSucceeds(s, signers, call, f);
    if Admissible(s, signers, call, f) {
      CallDoes(s, signers, call, f);
      var m := Rule(s, signers, call, f).value;
      assert [m][..0] == [] && [f][0] == f;
      assert AfterAll(s, [m]) == Next(s, m);
    }
  }

  // ---- what a refusal tells the caller -----------------------------------

  predicate IsDeposit(call: Call) {
    call.CreateEscrow? || call.CreatePooledEscrow? || call.TopUpEscrow? || call.ContributeTo?
  }

  predicate IsRelease(call: Call) { call.Release? || call.ReleaseWithApprovals? }

  predicate NamesEscrow(call: Call) { !call.CreateEscrow? && !call.CreatePooledEscrow? && !call.SwitchPause? }

  function Terms(call: Call): (string, Address)
    requires call.CreateEscrow? || call.CreatePooledEscrow?
  {
    if call.CreateEscrow? then (call.params.conditionRef, call.params.token) else (call.pool.conditionRef, call.pool.token)
  }

  predicate Stranger(approvers: seq<Address>, e: Escrow) {
    exists i :: 0 <= i < |approvers| && approvers[i] !in e.releasers
  }

  /** The caller is not who the call has to come from. */
  predicate WrongCaller(s: State, call: Call) {
    match call
    case TopUpEscrow(id, caller, _) => id in s.escrows && caller != s.escrows[id].payer
    case AcceptEscrow(id, caller) => id in s.escrows && caller != s.escrows[id].payee
    case TransferPayee(id, caller, _) => id in s.escrows && caller != s.escrows[id].payee
    case RotateReleaser(id, caller, _) => id in s.escrows && s.escrows[id].releasers != [] && caller != s.escrows[id].releasers[0]
    case Release(id, caller) => id in s.escrows && caller !in s.escrows[id].releasers
    case Refund(id, caller) =>
      && id in s.escrows && caller !in s.escrows[id].releasers && caller != s.escrows[id].payee
      && !Expired(s, s.escrows[id])
    case ReleaseWithApprovals(id, approvers) => id in s.escrows && Stranger(approvers, s.escrows[id])
    case RefundWithApprovals(id, approvers) => id in s.escrows && Stranger(approvers, s.escrows[id])
    case CancelEscrow(id, caller) => id in s.escrows && caller != s.escrows[id].payer
    case SwitchPause(caller, _) => caller != s.pauseAdmin
    case _ => false
  }

  predicate TooFewApprovals(s: State, call: Call) {
    match call
    case RotateReleaser(id, _, _) => id in s.escrows && s.escrows[id].threshold != 1
    case Release(id, _) => id in s.escrows && s.escrows[id].threshold != 1
    case Refund(id, _) => id in s.escrows && s.escrows[id].threshold != 1
    case ReleaseWithApprovals(id, approvers) => id in s.escrows && |approvers| < s.escrows[id].threshold
    case RefundWithApprovals(id, approvers) => id in s.escrows && |approvers| < s.escrows[id].threshold
    case _ => false
  }

  /** The error is true of the call and of the ledger it was made on. */
  predicate Explains(s: State, call: Call, f: Faults, error: Error) {
    if !NamesEscrow(call) then
      match error
      case Paused => IsDeposit(call) && s.paused
      case AlreadyPaused => call.SwitchPause? && call.flag && s.paused
      case NotPaused => call.SwitchPause? && !call.flag && !s.paused
      case Unauthorized => WrongCaller(s, call)
      case DisallowedToken => IsDeposit(call) && !TokenListed(s, Terms(call).1)
      case InvalidAmount => (call.CreateEscrow? && call.params.amount <= 0) || (call.CreatePooledEscrow? && call.pool.target <= 0)
      case ConditionRefTooLong => IsDeposit(call) && |Terms(call).0| > 64
      case InvalidFundingDeadline => call.CreatePooledEscrow? && call.pool.deadline <= s.now
      case _ => call.CreateEscrow? && ExplainsTerms(s, call.params, f, error)
    else if call.id !in s.escrows then
      error == NotFound || (IsDeposit(call) && ((error == Paused && s.paused) || (error == InvalidAmount && call.amount <= 0)))
    else
      var e := s.escrows[call.id];
      match error
      case Paused => IsDeposit(call) && s.paused
      case InvalidAmount => IsDeposit(call) && call.amount <= 0
      case Unauthorized => WrongCaller(s, call)
      case NotFunded => e.status != Funded
      case BalanceMismatch => IsDeposit(call) && f.skew != 0
      case CallbackFailed => IsRelease(call) && e.notifyPayee && f.callbackFails
      case Undeliverable => IsRelease(call) && (f.payoutFails || (FeeOf(e) > 0 && f.feeFails))
      case Overflow => call.TopUpEscrow? && e.amount + call.amount > 170141183460469231731687303715884105727
      case InvalidFee =>
        call.TopUpEscrow? && e.feeBps.Some?
        && (e.amount + call.amount) * e.feeBps.value > 170141183460469231731687303715884105727
      case ThresholdNotMet => TooFewApprovals(s, call)
      case DuplicateApprover => (call.ReleaseWithApprovals? || call.RefundWithApprovals?) && !AllDistinct(call.approvers)
      case AcceptanceRequired => IsRelease(call) && e.requiresAcceptance && e.acceptedAt == None
      case AcceptanceNotConfigured => (call.AcceptEscrow? || call.CancelEscrow?) && !e.requiresAcceptance
      case AlreadyAccepted => (call.AcceptEscrow? || call.CancelEscrow?) && e.acceptedAt.Some?
      case ReleaseTooEarly => IsRelease(call) && e.releaseNotBefore.Some? && s.now < e.releaseNotBefore.value
      case InvalidReleaser => call.RotateReleaser? && (call.releaser == Contract || call.releaser == e.payee)
      case InvalidNewPayee => call.TransferPayee? && (call.payee == Contract || call.payee == e.payer)
      case NotSupportedForPooled =>
        call.id in s.pooled && (call.TopUpEscrow? || call.Refund? || call.RefundWithApprovals? || call.CancelEscrow?)
      case NotPooled => call.id !in s.pooled && (call.ContributeTo? || call.ClaimRefund?)
      case FundingIncomplete => IsRelease(call) && call.id in s.pooled && e.amount != s.pooled[call.id].target
      case FundingDeadlinePassed => call.ContributeTo? && call.id in s.pooled && s.now >= s.pooled[call.id].deadline
      case FundingTargetReached =>
        && call.id in s.pooled
        && ((call.ContributeTo? && e.amount + call.amount > s.pooled[call.id].target)
            || (call.ClaimRefund? && e.amount >= s.pooled[call.id].target))
      case RefundNotOpen => call.ClaimRefund? && call.id in s.pooled && s.now < s.pooled[call.id].deadline
      case NoContribution => call.ClaimRefund? && (call.id, call.caller) !in s.contributions
      case AlreadyRefunded =>
        call.ClaimRefund? && (call.id, call.caller) in s.contributions && s.contributions[(call.id, call.caller)].refunded
      case _ => false
  }

  /** What the remaining errors of a creation say about its terms. */
  predicate ExplainsTerms(s: State, p: CreateParams, f: Faults, error: Error) {
    match error
    case InvalidRefundAfter => p.refundAfter.Some? && p.refundAfter.value <= s.now
    case InvalidReleaseNotBefore =>
      p.releaseNotBefore.Some?
      && (p.releaseNotBefore.value < s.now || (p.refundAfter.Some? && p.releaseNotBefore.value > p.refundAfter.value))
    case TooManyReleasers => |p.releasers| > 10
    case InvalidThreshold => p.threshold == 0 || p.threshold > |p.releasers|
    case DuplicateReleaser => !AllDistinct(p.releasers)
    case InvalidRefundTo => p.refundTo == Some(Contract) || (p.refundTo == None && p.payer == Contract)
    case InvalidFee => !GoodFee(p.amount, p.feeRecipient, p.feeBps)
    case BalanceMismatch => f.skew != 0
    case _ => false
  }

  /** The host stops a call that lacks a signature, asks one address twice, or whose token or payout refuses. */
  predicate Stopped(s: State, signers: set<Address>, call: Call, f: Faults) {
    match call
    case CreateEscrow(p) =>
      !Signed(signers, p.payer) || (p.notifyPayee && (!Signed(signers, p.payee) || p.payee == p.payer))
      || f.inboundRefused || Balance(s.balances, p.token, p.payer) < p.amount
    case CreatePooledEscrow(p) => !Signed(signers, p.creator)
    case TopUpEscrow(id, caller, amount) =>
      !Signed(signers, caller)
      || (id in s.escrows && (f.inboundRefused || Balance(s.balances, s.escrows[id].token, caller) < amount))
    case ContributeTo(id, caller, amount) =>
      !Signed(signers, caller)
      || (id in s.escrows && (f.inboundRefused || Balance(s.balances, s.escrows[id].token, caller) < amount))
    case ClaimRefund(_, caller) => !Signed(signers, caller) || f.payoutFails
    case RotateReleaser(id, caller, _) =>
      !Signed(signers, caller) || (id in s.escrows && (!Signed(signers, s.escrows[id].payer) || s.escrows[id].payer == caller))
    case ReleaseWithApprovals(_, approvers) => exists i :: 0 <= i < |approvers| && !Signed(signers, approvers[i])
    case RefundWithApprovals(_, approvers) => (exists i :: 0 <= i < |approvers| && !Signed(signers, approvers[i])) || f.payoutFails
    case Refund(_, caller) => !Signed(signers, caller) || f.payoutFails
    case CancelEscrow(_, caller) => !Signed(signers, caller) || f.payoutFails
    case _ => !Signed(signers, call.caller)
  }

  /** What a rule's answer says about the call. */
  ghost predicate Truthful(s: State, signers: set<Address>, call: Call, f: Faults, r: Outcome<Move>) {
    match r
    case Ok(_) => Admissible(s, signers, call, f)
    case Err(error) => Explains(s, call, f, error)
    case Trap => Stopped(s, signers, call, f)
  }

  lemma {:induction false} ScanTruthful(e: Escrow, approvers: seq<Address>, signers: set<Address>)
    ensures match ScanApprovals(e, approvers, signers)
            case Ok(_) => true
            case Err(error) => (error == Unauthorized && Stranger(approvers, e)) || (error == DuplicateApprover && !AllDistinct(approvers))
            case Trap => exists i :: 0 <= i < |approvers| && !Signed(signers, approvers[i])
  {
    if approvers != [] {
      var n := |approvers| - 1;
      var before := approvers[..n];
      ScanTruthful(e, before, signers);
      assert forall i :: 0 <= i < n ==> before[i] == approvers[i];
      assert approvers[n] in before ==> !AllDistinct(approvers);
    }
  }

  lemma FeeAmountOutcome(amount: int, bps: nat)
    requires amount >= 0
    ensures if amount * bps > 170141183460469231731687303715884105727 then FeeAmount(amount, bps) == Err(InvalidFee)
            else FeeAmount(amount, bps).Ok?
  {
    hide FeeShare;
    assert amount * bps >= 0;
  }

  lemma FeeTermsOutcome(amount: int, recipient: Option<Address>, bps: Option<nat>)
    requires amount >= 0
    ensures CheckFeeTerms(amount, recipient, bps) == if GoodFee(amount, recipient, bps) then Ok(()) else Err(InvalidFee)
  {
    hide FeeAmount;
    if bps.Some? { FeeAmountOutcome(amount, bps.value); }
  }

  lemma CreateTruthful(s: State, signers: set<Address>, p: CreateParams, f: Faults)
    requires Inv(s)
    ensures Truthful(s, signers, CreateEscrow(p), f, CreateRule(s, signers, p, false, f))
  {
    hide Inv, Admissible, TransferIn, Balance, CheckFeeTerms, GoodFee, NewEscrow;
    CallSucceeds(s, signers, CreateEscrow(p), f);
    if p.amount > 0 { FeeTermsOutcome(p.amount, p.feeRecipient, p.feeBps); }
    if p.payer != Contract && p.amount > 0 { TransferInOutcome(s, p.token, p.payer, p.amount, f); }
  }

  lemma PoolTruthful(s: State, signers: set<Address>, p: PoolParams, f: Faults)
    requires Inv(s)
    ensures Truthful(s, signers, CreatePooledEscrow(p), f, CreatePooledRule(s, signers, p))
  {
    hide Inv, Admissible;
    CallSucceeds(s, signers, CreatePooledEscrow(p), f);
  }

  lemma AmountRange(s: State, id: nat)
    requires Inv(s) && id in s.escrows
    ensures s.escrows[id].amount >= 0
  {
    RecordFacts(s, id);
  }

  /** How the transfer and the fee check of a top-up end. */
  lemma TopUpFacts(s: State, id: nat, caller: Address, amount: int, f: Faults)
    requires Inv(s) && id in s.escrows && amount > 0
    ensures var e := s.escrows[id];
            && e.amount >= 0
            && (caller != Contract ==>
                  TransferIn(s, e.token, caller, amount, f)
                  == if f.inboundRefused || Balance(s.balances, e.token, caller) < amount then Trap
                     else if f.skew != 0 then Err(BalanceMismatch)
                     else Ok(()))
            && (e.feeBps.Some? ==>
                  if (e.amount + amount) * e.feeBps.value > 170141183460469231731687303715884105727
                  then FeeAmount(e.amount + amount, e.feeBps.value) == Err(InvalidFee)
                  else FeeAmount(e.amount + amount, e.feeBps.value).Ok?)
  {
    hide Inv, TransferIn, Balance, FeeAmount;
    var e := s.escrows[id];
    AmountRange(s, id);
    if caller != Contract { TransferInOutcome(s, e.token, caller, amount, f); }
    if e.feeBps.Some? { FeeAmountOutcome(e.amount + amount, e.feeBps.value); }
  }

  lemma TopUpTruthful(s: State, signers: set<Address>, id: nat, caller: Address, amount: I128, f: Faults)
    requires Inv(s)
    ensures Truthful(s, signers, TopUpEscrow(id, caller, amount), f, TopUpRule(s, signers, id, caller, amount, f))
  {
    hide Inv, Admissible, TransferIn, Balance, FeeAmount;
    CallSucceeds(s, signers, TopUpEscrow(id, caller, amount), f);
    if amount > 0 && id in s.escrows { TopUpFacts(s, id, caller, amount, f); }
  }

  lemma ContributionTruthful(s: State, signers: set<Address>, id: nat, caller: Address, amount: I128, f: Faults)
    requires Inv(s)
    ensures Truthful(s, signers, ContributeTo(id, caller, amount), f, ContributeRule(s, signers, id, caller, amount, f))
  {
    hide Inv, Admissible, TransferIn, Balance;
    CallSucceeds(s, signers, ContributeTo(id, caller, amount), f);
    ContributeNeverOverflows(s, signers, id, caller, amount, f);
    if id in s.escrows && id in s.pooled {
      PoolRecordRange(s, id);
      if amount > 0 && caller != Contract { TransferInOutcome(s, s.escrows[id].token, caller, amount, f); }
    }
  }

  /** Whatever a contributor can claim, the contract holds. */
  lemma ClaimFunded(s: State, id: nat, who: Address)
    requires Inv(s) && id in s.escrows && id in s.pooled && (id, who) in s.contributions
    requires s.escrows[id].status == Funded && !s.contributions[(id, who)].refunded
    ensures s.contributions[(id, who)].amount <= Balance(s.balances, s.escrows[id].token, Contract)
  {
    hide Inv;
    RecordFacts(s, id);
    ClaimPledges(s, id, who);
    AmountWithinLiability(s, id);
  }

  lemma ClaimTruthful(s: State, signers: set<Address>, id: nat, who: Address, f: Faults)
    requires Inv(s)
    ensures Truthful(s, signers, ClaimRefund(id, who), f, ClaimRule(s, signers, id, who, f))
  {
    hide Inv, Admissible, Balance, Owing, MayClaim;
    CallSucceeds(s, signers, ClaimRefund(id, who), f);
    ClaimNeverOverflows(s, signers, id, who, f);
    if id in s.escrows && id in s.pooled && (id, who) in s.contributions && s.escrows[id].status == Funded
       && !s.contributions[(id, who)].refunded {
      ClaimFunded(s, id, who);
    }
  }

  lemma AcceptTruthful(s: State, signers: set<Address>, id: nat, caller: Address, f: Faults)
    requires Inv(s)
    ensures Truthful(s, signers, AcceptEscrow(id, caller), f, AcceptRule(s, signers, id, caller))
  {
    hide Inv, Admissible;
    CallSucceeds(s, signers, AcceptEscrow(id, caller), f);
  }

  lemma RotateTruthful(s: State, signers: set<Address>, id: nat, caller: Address, to: Address, f: Faults)
    requires Inv(s)
    ensures Truthful(s, signers, RotateReleaser(id, caller, to), f, RotateRule(s, signers, id, caller, to))
  {
    hide Inv, Admissible;
    if id in s.escrows { RecordFacts(s, id); }
    CallSucceeds(s, signers, RotateReleaser(id, caller, to), f);
  }

  lemma TransferTruthful(s: State, signers: set<Address>, id: nat, caller: Address, to: Address, f: Faults)
    requires Inv(s)
    ensures Truthful(s, signers, TransferPayee(id, caller, to), f, TransferPayeeRule(s, signers, id, caller, to))
  {
    hide Inv, Admissible;
    CallSucceeds(s, signers, TransferPayee(id, caller, to), f);
  }

  lemma PauseTruthful(s: State, signers: set<Address>, caller: Address, flag: bool, f: Faults)
    requires Inv(s)
    ensures Truthful(s, signers, SwitchPause(caller, flag), f, PauseRule(s, signers, caller, flag))
  {
    hide Inv, Admissible;
    CallSucceeds(s, signers, SwitchPause(caller, flag), f);
  }

  /** A settlement's own answer, once its caller has been accepted. */
  lemma SettleTruthful(s: State, signers: set<Address>, call: Call, settled: Status, byPayee: bool, f: Faults)
    requires Inv(s) && NamesEscrow(call) && call.id in s.escrows && s.escrows[call.id].status == Funded && settled != Funded
    ensures match SettleRule(s, call.id, s.escrows[call.id], settled, byPayee, f)
            case Ok(_) => true
            case Err(error) => settled == Released && (IsRelease(call) ==> Explains(s, call, f, error))
            case Trap => settled != Released && f.payoutFails
  {
    hide Inv, Admissible, SettleRule, Fee, FeeOf;
    SettleOutcome(s, call.id, settled, byPayee, f);
    FeeIsFloor(s, call.id);
  }

  lemma ReleaseTruthful(s: State, signers: set<Address>, id: nat, caller: Address, f: Faults)
    requires Inv(s)
    ensures Truthful(s, signers, Release(id, caller), f, ReleaseRule(s, signers, id, caller, f))
  {
    hide Inv, Admissible, SettleRule, FeeOf;
    CallSucceeds(s, signers, Release(id, caller), f);
    if id in s.escrows && s.escrows[id].status == Funded { SettleTruthful(s, signers, Release(id, caller), Released, false, f); }
  }

  lemma ApprovedReleaseTruthful(s: State, signers: set<Address>, id: nat, approvers: seq<Address>, f: Faults)
    requires Inv(s)
    ensures Truthful(s, signers, ReleaseWithApprovals(id, approvers), f, ReleaseWithApprovalsRule(s, signers, id, approvers, f))
  {
    hide Inv, Admissible, SettleRule, FeeOf, ScanApprovals, AllDistinct, Stranger;
    CallSucceeds(s, signers, ReleaseWithApprovals(id, approvers), f);
    if id in s.escrows {
      ScanTruthful(s.escrows[id], approvers, signers);
      if s.escrows[id].status == Funded { SettleTruthful(s, signers, ReleaseWithApprovals(id, approvers), Released, false, f); }
    }
  }

  lemma RefundTruthful(s: State, signers: set<Address>, id: nat, caller: Address, f: Faults)
    requires Inv(s)
    ensures Truthful(s, signers, Refund(id, caller), f, RefundRule(s, signers, id, caller, f))
  {
    hide Inv, Admissible, SettleRule, FeeOf;
    CallSucceeds(s, signers, Refund(id, caller), f);
    if id in s.escrows && s.escrows[id].status == Funded {
      SettleTruthful(s, signers, Refund(id, caller), Refunded, true, f);
      SettleTruthful(s, signers, Refund(id, caller), Refunded, false, f);
    }
  }

  lemma ApprovedRefundTruthful(s: State, signers: set<Address>, id: nat, approvers: seq<Address>, f: Faults)
    requires Inv(s)
    ensures Truthful(s, signers, RefundWithApprovals(id, approvers), f, RefundWithApprovalsRule(s, signers, id, approvers, f))
  {
    hide Inv, Admissible, SettleRule, FeeOf, ScanApprovals, AllDistinct, Stranger;
    CallSucceeds(s, signers, RefundWithApprovals(id, approvers), f);
    if id in s.escrows {
      ScanTruthful(s.escrows[id], approvers, signers);
      if s.escrows[id].status == Funded { SettleTruthful(s, signers, RefundWithApprovals(id, approvers), Refunded, false, f); }
    }
  }

  lemma CancelTruthful(s: State, signers: set<Address>, id: nat, payer: Address, f: Faults)
    requires Inv(s)
    ensures Truthful(s, signers, CancelEscrow(id, payer), f, CancelRule(s, signers, id, payer, f))
  {
    hide Inv, Admissible, SettleRule, FeeOf;
    CallSucceeds(s, signers, CancelEscrow(id, payer), f);
    if id in s.escrows && s.escrows[id].status == Funded {
      SettleTruthful(s, signers, CancelEscrow(id, payer), Cancelled, false, f);
    }
  }

  /** Every error is true of the call it refuses, and every trap is a missing signature or an outside refusal. */
  lemma AnswersAreTruthful(s: State, signers: set<Address>, call: Call, f: Faults)
    requires Inv(s)
    ensures Truthful(s, signers, call, f, Rule(s, signers, call, f))
  {
    hide Inv, Truthful, CreateRule, CreatePooledRule, TopUpRule, ContributeRule, ClaimRule, AcceptRule, RotateRule,
         TransferPayeeRule, ReleaseRule, ReleaseWithApprovalsRule, RefundRule, RefundWithApprovalsRule, CancelRule, PauseRule;
    match call
    case CreateEscrow(p) => CreateTruthful(s, signers, p, f);
    case CreatePooledEscrow(p) => PoolTruthful(s, signers, p, f);
    case TopUpEscrow(id, caller, amount) => TopUpTruthful(s, signers, id, caller, amount, f);
    case ContributeTo(id, caller, amount) => ContributionTruthful(s, signers, id, caller, amount, f);
    case ClaimRefund(id, caller) => ClaimTruthful(s, signers, id, caller, f);
    case AcceptEscrow(id, caller) => AcceptTruthful(s, signers, id, caller, f);
    case RotateReleaser(id, caller, releaser) => RotateTruthful(s, signers, id, caller, releaser, f);
    case TransferPayee(id, caller, payee) => TransferTruthful(s, signers, id, caller, payee, f);
    case Release(id, caller) => ReleaseTruthful(s, signers, id, caller, f);
    case ReleaseWithApprovals(id, approvers) => ApprovedReleaseTruthful(s, signers, id, approvers, f);
    case Refund(id, caller) => RefundTruthful(s, signers, id, caller, f);
    case RefundWithApprovals(id, approvers) => ApprovedRefundTruthful(s, signers, id, approvers, f);
    case CancelEscrow(id, caller) => CancelTruthful(s, signers, id, caller, f);
    case SwitchPause(caller, flag) => PauseTruthful(s, signers, caller, flag, f);
  }
}
