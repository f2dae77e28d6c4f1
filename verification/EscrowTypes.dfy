// The escrow contract's records, storage and token ledgers as values.
module EscrowTypes {
  import opened Prelude

  const I128_MAX: int := 0x7FFF_FFFF_FFFF_FFFF_FFFF_FFFF_FFFF_FFFF
  const I128_MIN: int := -I128_MAX - 1

  const MAX_RELEASERS: nat := 10
  const MAX_CONDITION_REF_LEN: nat := 64
  const MAX_BATCH_SIZE: nat := 16
  const MAX_SETTLE_OPS: nat := 12
  const MAX_FEE_BPS: nat := 1_000
  const BASIS_POINTS: int := 10_000

  predicate InI128(x: int) { I128_MIN <= x <= I128_MAX }

  /** `Contract` is the escrow contract's own address. It has no key and never signs. */
  datatype Address = Contract | Party(id: nat)

  datatype Status = Funded | Released | Refunded | Cancelled

  datatype Escrow = Escrow(
    payer: Address,
    payee: Address,
    token: Address,
    amount: int,
    conditionRef: string,
    status: Status,
    releasers: seq<Address>,
    threshold: nat,
    refundAfter: Option<nat>,
    notifyPayee: bool,
    requiresAcceptance: bool,
    acceptedAt: Option<nat>,
    refundTo: Address,
    releaseNotBefore: Option<nat>,
    feeRecipient: Option<Address>,
    feeBps: Option<nat>)

  /** Funding terms of a pooled escrow; an escrow is pooled exactly when it has one. */
  datatype Pool = Pool(target: int, deadline: nat)

  datatype Contribution = Contribution(amount: int, refunded: bool)

  datatype Error =
    | NotFound | InvalidAmount | Unauthorized | NotFunded | InvalidRefundAfter
    | BalanceMismatch | ConditionRefTooLong | DisallowedToken | CallbackFailed
    | Overflow | InvalidThreshold | TooManyReleasers | ThresholdNotMet
    | DuplicateApprover | DuplicateReleaser | AcceptanceRequired
    | AcceptanceNotConfigured | AlreadyAccepted | InvalidRefundTo
    | InvalidReleaseNotBefore | ReleaseTooEarly | InvalidReleaser | BatchTooLarge
    | NotPooled | FundingDeadlinePassed | FundingTargetReached | FundingIncomplete
    | RefundNotOpen | AlreadyRefunded | NoContribution | NotSupportedForPooled
    | InvalidFundingDeadline | InvalidFee | Undeliverable | InvalidNewPayee
    | Paused | AlreadyPaused | NotPaused

  /**
   * How an invocation ends: a value, a typed contract error, or a host trap
   * (missing authorization, a token panic, `panic_with_error`). The host rolls
   * back every write of an invocation that ends in `Err` or `Trap`.
   */
  datatype Outcome<+T> = Ok(value: T) | Err(error: Error) | Trap
  {
    predicate IsFailure() { !Ok? }
    function PropagateFailure<U>(): Outcome<U>
      requires IsFailure()
    {
      if Err? then Outcome<U>.Err(error) else Outcome<U>.Trap
    }
    function Extract(): T
      requires Ok?
    {
      value
    }
  }

  datatype Action = ActCreated | ActReleased | ActRefunded | ActCancelled

  /** What the contract publishes. `Lifecycle` carries the whole record as published. */
  datatype Event =
    | Lifecycle(action: Action, id: nat, data: Escrow)
    | AcceptedEvent(id: nat, payee: Address, at: nat)
    | ContributedEvent(id: nat, who: Address, amount: int, funded: int)
    | ClaimedEvent(id: nat, who: Address, amount: int)
    | RotatedEvent(id: nat, previous: Address, next: Address)
    | ToppedUpEvent(id: nat, amount: int, updated: int)
    | PayeeMovedEvent(id: nat, previous: Address, next: Address)
    | PayeeRefundedEvent(id: nat, payer: Address, payee: Address, amount: int)
    | PausedEvent(admin: Address)
    | UnpausedEvent(admin: Address)

  type Escrows = map<nat, Escrow>
  type Contributions = map<(nat, Address), Contribution>
  /** Token ledgers: (token, holder) to balance; an absent entry is zero. */
  type Balances = map<(Address, Address), int>

  /** Contract storage, the token ledgers, the published events and the ledger clock. */
  datatype State = State(
    escrows: Escrows,
    status: map<nat, Status>,
    pooled: map<nat, Pool>,
    contributions: Contributions,
    liability: map<Address, int>,
    nextId: nat,
    paused: bool,
    allowedTokens: seq<Address>,
    pauseAdmin: Address,
    balances: Balances,
    events: seq<Event>,
    now: nat)

  function Balance(b: Balances, token: Address, holder: Address): int {
    if (token, holder) in b then b[(token, holder)] else 0
  }

  function Owing(liability: map<Address, int>, token: Address): int {
    if token in liability then liability[token] else 0
  }

  function Liability(s: State, token: Address): int { Owing(s.liability, token) }

  /** An honest transfer. A transfer to oneself changes nothing. */
  function Transfer(b: Balances, token: Address, from: Address, to: Address, amount: int): Balances {
    var b1 := b[(token, from) := Balance(b, token, from) - amount];
    b1[(token, to) := Balance(b1, token, to) + amount]
  }

  /**
   * What outside parties do to one invocation: whether the token refuses the
   * inbound transfer or credits `skew` more than asked, and whether the fee
   * transfer, the payout transfer or the payee callback fails.
   */
  datatype Faults = Faults(inboundRefused: bool, skew: int, feeFails: bool, payoutFails: bool, callbackFails: bool)

  const NO_FAULTS := Faults(false, 0, false, false, false)

  // ---- what is owed ------------------------------------------------------

  /** A `Funded` escrow in `token` counts its amount. */
  ghost function OwedTerm(token: Address): (nat, Escrow) -> int {
    (id: nat, e: Escrow) => if e.status == Funded && e.token == token then e.amount else 0
  }

  /** Sum of `amount` over the `Funded` escrows in `token`. */
  ghost function Owed(escrows: Escrows, token: Address): int { Sum(escrows, OwedTerm(token)) }

  ghost function PledgedTerm(id: nat): ((nat, Address), Contribution) -> int {
    (k: (nat, Address), c: Contribution) => if k.0 == id && !c.refunded then c.amount else 0
  }

  /** Sum of the non-refunded contributions recorded against escrow `id`. */
  ghost function Pledged(contributions: Contributions, id: nat): int { Sum(contributions, PledgedTerm(id)) }

  ghost function SupplyTerm(token: Address): ((Address, Address), int) -> int {
    (k: (Address, Address), v: int) => if k.0 == token then v else 0
  }

  ghost function Supply(b: Balances, token: Address): int { Sum(b, SupplyTerm(token)) }

  lemma OwedUpdate(escrows: Escrows, id: nat, e: Escrow, token: Address)
    ensures Owed(escrows[id := e], token)
         == Owed(escrows, token)
          - (if id in escrows then OwedTerm(token)(id, escrows[id]) else 0)
          + OwedTerm(token)(id, e)
  {
    SumUpdate(escrows, OwedTerm(token), id, e);
  }

  lemma PledgedUpdate(contributions: Contributions, k: (nat, Address), c: Contribution, id: nat)
    ensures Pledged(contributions[k := c], id)
         == Pledged(contributions, id)
          - (if k in contributions then PledgedTerm(id)(k, contributions[k]) else 0)
          + PledgedTerm(id)(k, c)
  {
    SumUpdate(contributions, PledgedTerm(id), k, c);
  }

  /** What a transfer does to every balance. */
  lemma TransferAt(b: Balances, token: Address, from: Address, to: Address, amount: int)
    ensures var b' := Transfer(b, token, from, to, amount);
            && b'.Keys == b.Keys + {(token, from), (token, to)}
            && forall t: Address, x: Address ::
                 Balance(b', t, x) == Balance(b, t, x) - (if t == token && x == from then amount else 0)
                                                       + (if t == token && x == to then amount else 0)
  {
  }

  /** A transfer moves tokens and makes none: every supply is unchanged. */
  lemma TransferKeepsSupply(b: Balances, token: Address, from: Address, to: Address, amount: int, t: Address)
    ensures Supply(Transfer(b, token, from, to, amount), t) == Supply(b, t)
  {
    var debited := Balance(b, token, from) - amount;
    var b1 := b[(token, from) := debited];
    SumUpdate(b, SupplyTerm(t), (token, from), debited);
    SumUpdate(b1, SupplyTerm(t), (token, to), Balance(b1, token, to) + amount);
  }
}
