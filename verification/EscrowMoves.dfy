// What a move does to the ledger, when it is permitted, and the invariant.
module EscrowMoves {
  import opened Prelude
  import opened EscrowTypes
  import opened EscrowRules

  // ---- effects -----------------------------------------------------------

  predicate Fits(s: State, m: Move) {
    match m
    case Open(_) => true
    case OpenPool(_, _) => true
    case SetPaused(_) => true
    case Claim(id, who) => id in s.escrows && (id, who) in s.contributions
    case Settle(id, settled, _) => id in s.escrows && settled != Funded
    case Rotate(id, _) => id in s.escrows && s.escrows[id].releasers != []
    case _ => m.id in s.escrows
  }

  function Credit(liability: map<Address, int>, token: Address, amount: int): map<Address, int> {
    liability[token := Owing(liability, token) + amount]
  }

  function Opened(s: State, e: Escrow): State {
    s.(escrows := s.escrows[s.nextId := e],
       status := s.status[s.nextId := e.status],
       nextId := s.nextId + 1,
       liability := Credit(s.liability, e.token, e.amount),
       balances := Transfer(s.balances, e.token, e.payer, Contract, e.amount),
       events := s.events + [Lifecycle(ActCreated, s.nextId, e)])
  }

  function PoolOpened(s: State, e: Escrow, pool: Pool): State {
    s.(escrows := s.escrows[s.nextId := e],
       status := s.status[s.nextId := e.status],
       nextId := s.nextId + 1,
       pooled := s.pooled[s.nextId := pool],
       events := s.events + [Lifecycle(ActCreated, s.nextId, e)])
  }

  function ToppedUp(s: State, id: nat, amount: int): State
    requires id in s.escrows
  {
    var e := s.escrows[id];
    s.(escrows := s.escrows[id := e.(amount := e.amount + amount)],
       liability := Credit(s.liability, e.token, amount),
       balances := Transfer(s.balances, e.token, e.payer, Contract, amount),
       events := s.events + [ToppedUpEvent(id, amount, e.amount + amount)])
  }

  function Contributed(s: State, id: nat, who: Address, amount: int): State
    requires id in s.escrows
  {
    var e, c := s.escrows[id], RecordOf(s, id, who);
    s.(escrows := s.escrows[id := e.(amount := e.amount + amount)],
       contributions := s.contributions[(id, who) := c.(amount := c.amount + amount)],
       liability := Credit(s.liability, e.token, amount),
       balances := Transfer(s.balances, e.token, who, Contract, amount),
       events := s.events + [ContributedEvent(id, who, amount, e.amount + amount)])
  }

  /** Storage as a pool claim writes it before it calls the token. */
  function MarkedClaimed(s: State, id: nat, who: Address): State
    requires id in s.escrows && (id, who) in s.contributions
  {
    var e, c := s.escrows[id], s.contributions[(id, who)];
    s.(escrows := s.escrows[id := e.(amount := e.amount - c.amount)],
       contributions := s.contributions[(id, who) := c.(refunded := true)],
       liability := Credit(s.liability, e.token, -c.amount))
  }

  function Claimed(s: State, id: nat, who: Address): State
    requires id in s.escrows && (id, who) in s.contributions
  {
    var e, c := s.escrows[id], s.contributions[(id, who)];
    MarkedClaimed(s, id, who)
      .(balances := Transfer(s.balances, e.token, Contract, who, c.amount),
        events := s.events + [ClaimedEvent(id, who, c.amount)])
  }

  /** Storage as a settlement writes it before it calls any token or payee. */
  function Closed(s: State, id: nat, settled: Status): State
    requires id in s.escrows
  {
    var e := s.escrows[id];
    s.(escrows := s.escrows[id := e.(status := settled)],
       status := s.status[id := settled],
       liability := Credit(s.liability, e.token, -e.amount))
  }

  function SettledAction(settled: Status): Action {
    match settled
    case Funded => ActCreated
    case Released => ActReleased
    case Refunded => ActRefunded
    case Cancelled => ActCancelled
  }

  function SettleEvents(id: nat, e: Escrow, settled: Status, byPayee: bool): seq<Event> {
    [Lifecycle(SettledAction(settled), id, e.(status := settled))]
    + if byPayee then [PayeeRefundedEvent(id, e.payer, e.payee, e.amount)] else []
  }

  function Settled(s: State, id: nat, settled: Status, byPayee: bool): State
    requires id in s.escrows
  {
    Closed(s, id, settled)
      .(balances := PayOut(s.balances, s.escrows[id], settled),
        events := s.events + SettleEvents(id, s.escrows[id], settled, byPayee))
  }

  /** A record edit that moves no value. */
  function Edited(s: State, id: nat, e: Escrow, event: Event): State {
    s.(escrows := s.escrows[id := e], events := s.events + [event])
  }

  function Accepted(s: State, id: nat): State
    requires id in s.escrows
  {
    var e := s.escrows[id];
    Edited(s, id, e.(acceptedAt := Some(s.now)), AcceptedEvent(id, e.payee, s.now))
  }

  function Rotated(s: State, id: nat, releaser: Address): State
    requires id in s.escrows && s.escrows[id].releasers != []
  {
    var e := s.escrows[id];
    Edited(s, id, e.(releasers := [releaser]), RotatedEvent(id, e.releasers[0], releaser))
  }

  function Redirected(s: State, id: nat, payee: Address): State
    requires id in s.escrows
  {
    var e := s.escrows[id];
    Edited(s, id, e.(payee := payee), PayeeMovedEvent(id, e.payee, payee))
  }

  function PauseSet(s: State, flag: bool): State {
    s.(paused := flag,
       events := s.events + [if flag then PausedEvent(s.pauseAdmin) else UnpausedEvent(s.pauseAdmin)])
  }

  function After(s: State, m: Move): State
    requires Fits(s, m)
  {
    match m
    case Open(e) => Opened(s, e)
    case OpenPool(e, pool) => PoolOpened(s, e, pool)
    case TopUp(id, amount) => ToppedUp(s, id, amount)
    case Contribute(id, who, amount) => Contributed(s, id, who, amount)
    case Claim(id, who) => Claimed(s, id, who)
    case Accept(id) => Accepted(s, id)
    case Rotate(id, releaser) => Rotated(s, id, releaser)
    case Redirect(id, payee) => Redirected(s, id, payee)
    case Settle(id, settled, byPayee) => Settled(s, id, settled, byPayee)
    case SetPaused(flag) => PauseSet(s, flag)
  }

  // ---- the invariant -----------------------------------------------------

  ghost predicate WellFormed(e: Escrow) {
    && 0 <= e.amount <= I128_MAX
    && e.payer != Contract
    && 1 <= e.threshold <= |e.releasers| <= MAX_RELEASERS
    && !HasDuplicates(e.releasers)
    && |e.conditionRef| <= MAX_CONDITION_REF_LEN
    && (e.feeRecipient.Some? <==> e.feeBps.Some?)
    && (e.feeBps.Some? ==> e.feeBps.value <= MAX_FEE_BPS && e.feeRecipient.value != Contract
                           && InI128(e.amount * e.feeBps.value))
    && (e.acceptedAt.Some? ==> e.requiresAcceptance && e.payee != Contract)
  }

  /** Escrows, their `Status` entries and the pool entries cover consecutive ids and agree. */
  ghost predicate Shape(
    escrows: Escrows, status: map<nat, Status>, pooled: map<nat, Pool>, contributions: Contributions, nextId: nat)
  {
    && (forall id: nat :: id in escrows <==> id < nextId)
    && status.Keys == escrows.Keys
    && pooled.Keys <= escrows.Keys
    && (forall id :: id in escrows ==> status[id] == escrows[id].status)
    && (forall k :: k in contributions ==> k.0 in pooled)
  }

  ghost predicate GoodRecord(e: Escrow, pooled: bool) {
    WellFormed(e) && (!pooled ==> e.amount > 0 && e.refundTo != Contract)
  }

  ghost predicate Records(escrows: Escrows, pooled: map<nat, Pool>) {
    forall id :: id in escrows ==> GoodRecord(escrows[id], id in pooled)
  }

  /** A pooled record never carries the optional features of a single escrow. */
  ghost predicate PlainTerms(e: Escrow) {
    && e.threshold == 1 == |e.releasers|
    && e.refundAfter == None && e.releaseNotBefore == None
    && e.feeRecipient == None && e.feeBps == None
    && !e.notifyPayee && !e.requiresAcceptance
  }

  /** A funded pool holds its non-refunded contributions; a released one holds its target. */
  ghost predicate GoodPool(e: Escrow, pool: Pool, pledged: int) {
    && PlainTerms(e)
    && 0 < pool.target <= I128_MAX
    && (e.status == Funded || e.status == Released)
    && (e.status == Funded ==> e.amount == pledged && e.amount <= pool.target)
    && (e.status == Released ==> e.amount == pool.target)
  }

  ghost predicate Pools(escrows: Escrows, pooled: map<nat, Pool>, contributions: Contributions) {
    forall id :: id in pooled && id in escrows ==> GoodPool(escrows[id], pooled[id], Pledged(contributions, id))
  }

  /** A refunded record exists only in a round that failed: past the deadline, below target. */
  ghost predicate GoodContribution(c: Contribution, who: Address, e: Escrow, pool: Pool, now: nat) {
    && c.amount > 0
    && who != Contract
    && (c.refunded ==> e.status == Funded && now >= pool.deadline && e.amount < pool.target)
  }

  ghost predicate Contributors(escrows: Escrows, pooled: map<nat, Pool>, contributions: Contributions, now: nat) {
    forall k :: k in contributions && k.0 in pooled && k.0 in escrows ==>
      GoodContribution(contributions[k], k.1, escrows[k.0], pooled[k.0], now)
  }

  /** The running counter is the sum it caches, and the contract holds at least that much. */
  ghost predicate Books(escrows: Escrows, liability: map<Address, int>, balances: Balances) {
    forall t: Address ::
      Owing(liability, t) == Owed(escrows, t) && Balance(balances, t, Contract) >= Owing(liability, t)
  }

  ghost predicate HonestTokens(b: Balances) {
    && (forall k :: k in b ==> b[k] >= 0)
    && (forall t: Address :: Supply(b, t) <= I128_MAX)
  }

  ghost predicate Inv(s: State) {
    && Shape(s.escrows, s.status, s.pooled, s.contributions, s.nextId)
    && Records(s.escrows, s.pooled)
    && Pools(s.escrows, s.pooled, s.contributions)
    && Contributors(s.escrows, s.pooled, s.contributions, s.now)
    && Books(s.escrows, s.liability, s.balances)
    && HonestTokens(s.balances)
  }

  // ---- authority ---------------------------------------------------------

  /** At least `threshold` distinct stored releasers are among the signers. */
  ghost predicate QuorumSigned(e: Escrow, signers: set<Address>) {
    |set a | a in e.releasers && CanSign(signers, a)| >= e.threshold
  }

  ghost predicate FullyFunded(s: State, id: nat, e: Escrow) {
    id in s.pooled ==> e.amount == s.pooled[id].target
  }

  /** Who must have agreed, and what must hold, for escrow `id` to end as `settled`. */
  ghost predicate MaySettle(s: State, id: nat, settled: Status, signers: set<Address>)
    requires id in s.escrows
  {
    var e := s.escrows[id];
    && e.status == Funded
    && match settled
       case Funded => false
       case Released =>
         && QuorumSigned(e, signers)
         && (e.releaseNotBefore.Some? ==> s.now >= e.releaseNotBefore.value)
         && (e.requiresAcceptance ==> e.acceptedAt.Some?)
         && FullyFunded(s, id, e)
       case Refunded =>
         && id !in s.pooled
         && (CanSign(signers, e.payee) || QuorumSigned(e, signers) || TimedOut(s, e))
       case Cancelled =>
         && id !in s.pooled
         && CanSign(signers, e.payer)
         && e.requiresAcceptance && e.acceptedAt.None?
  }

  ghost predicate NewTerms(s: State, e: Escrow, signers: set<Address>) {
    && !s.paused && TokenAllowed(s, e.token)
    && WellFormed(e) && e.status == Funded && e.acceptedAt.None?
    && CanSign(signers, e.payer)
    && (e.notifyPayee ==> CanSign(signers, e.payee))
    && (e.refundAfter.Some? ==> e.refundAfter.value > s.now)
  }

  ghost predicate MayClaim(s: State, id: nat, who: Address, signers: set<Address>) {
    && id in s.escrows && id in s.pooled && (id, who) in s.contributions
    && s.escrows[id].status == Funded
    && s.now >= s.pooled[id].deadline
    && s.escrows[id].amount < s.pooled[id].target
    && !s.contributions[(id, who)].refunded
    && CanSign(signers, who)
  }

  ghost predicate MayOpen(s: State, e: Escrow, signers: set<Address>) {
    && NewTerms(s, e, signers)
    && e.amount > 0 && e.refundTo != Contract
    && Balance(s.balances, e.token, e.payer) >= e.amount
  }

  ghost predicate MayOpenPool(s: State, e: Escrow, pool: Pool, signers: set<Address>) {
    && NewTerms(s, e, signers) && PlainTerms(e)
    && e.amount == 0 && 0 < pool.target <= I128_MAX && pool.deadline > s.now
  }

  ghost predicate MayTopUp(s: State, id: nat, amount: int, signers: set<Address>) {
    && id in s.escrows && id !in s.pooled && !s.paused && amount > 0
    && var e := s.escrows[id];
    && e.status == Funded && CanSign(signers, e.payer)
    && InI128(e.amount + amount)
    && (e.feeBps.Some? ==> InI128((e.amount + amount) * e.feeBps.value))
    && Balance(s.balances, e.token, e.payer) >= amount
  }

  ghost predicate MayContribute(s: State, id: nat, who: Address, amount: int, signers: set<Address>) {
    && id in s.escrows && id in s.pooled && !s.paused && amount > 0
    && var e, pool := s.escrows[id], s.pooled[id];
    && e.status == Funded && s.now < pool.deadline && CanSign(signers, who)
    && e.amount + amount <= pool.target
    && Balance(s.balances, e.token, who) >= amount
  }

  ghost predicate MayAccept(s: State, id: nat, signers: set<Address>) {
    && id in s.escrows
    && var e := s.escrows[id];
    && e.status == Funded && e.requiresAcceptance && e.acceptedAt.None? && CanSign(signers, e.payee)
  }

  ghost predicate MayRotate(s: State, id: nat, releaser: Address, signers: set<Address>) {
    && id in s.escrows
    && var e := s.escrows[id];
    && e.status == Funded && e.threshold == 1 && e.releasers != []
    && CanSign(signers, e.releasers[0]) && CanSign(signers, e.payer)
    && releaser != Contract && releaser != e.payee
  }

  ghost predicate MayRedirect(s: State, id: nat, payee: Address, signers: set<Address>) {
    && id in s.escrows
    && var e := s.escrows[id];
    && e.status == Funded && CanSign(signers, e.payee)
    && payee != Contract && payee != e.payer
  }

  /** The conditions under which the ledger may make a move, stated without the code's order. */
  ghost predicate Permitted(s: State, signers: set<Address>, m: Move) {
    match m
    case Open(e) => MayOpen(s, e, signers)
    case OpenPool(e, pool) => MayOpenPool(s, e, pool, signers)
    case TopUp(id, amount) => MayTopUp(s, id, amount, signers)
    case Contribute(id, who, amount) => MayContribute(s, id, who, amount, signers)
    case Claim(id, who) => MayClaim(s, id, who, signers)
    case Accept(id) => MayAccept(s, id, signers)
    case Rotate(id, releaser) => MayRotate(s, id, releaser, signers)
    case Redirect(id, payee) => MayRedirect(s, id, payee, signers)
    case Settle(id, settled, byPayee) =>
      && id in s.escrows
      && MaySettle(s, id, settled, signers)
      && (byPayee ==> settled == Refunded && CanSign(signers, s.escrows[id].payee))
    case SetPaused(flag) => s.paused != flag && CanSign(signers, s.pauseAdmin)
  }

  lemma PermittedFits(s: State, signers: set<Address>, m: Move)
    requires Permitted(s, signers, m)
    ensures Fits(s, m)
  {
  }
}
