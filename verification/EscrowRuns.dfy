// Calls, steps and runs of the escrow contract, and what holds over every run.
module EscrowRuns {
  import opened Prelude
  import opened EscrowTypes
  import opened EscrowRules
  import opened EscrowMoves
  import opened EscrowSafety

  /** The entry points that settle or change one escrow. */
  datatype Call =
    | CreateEscrow(params: CreateParams)
    | CreatePooledEscrow(pool: PoolParams)
    | TopUpEscrow(id: nat, caller: Address, amount: I128)
    | ContributeTo(id: nat, caller: Address, amount: I128)
    | ClaimRefund(id: nat, caller: Address)
    | AcceptEscrow(id: nat, caller: Address)
    | RotateReleaser(id: nat, caller: Address, releaser: Address)
    | TransferPayee(id: nat, caller: Address, payee: Address)
    | Release(id: nat, caller: Address)
    | ReleaseWithApprovals(id: nat, approvers: seq<Address>)
    | Refund(id: nat, caller: Address)
    | RefundWithApprovals(id: nat, approvers: seq<Address>)
    | CancelEscrow(id: nat, caller: Address)
    | SwitchPause(caller: Address, flag: bool)

  datatype Item = Item(payee: Address, token: Address, amount: I128, conditionRef: string, releaser: Address, refundAfter: Option<nat>)

  datatype Operation =
    | Single(call: Call)
    | CreateEscrows(payer: Address, items: seq<Item>)
    | SettleMany(caller: Address, ops: seq<(nat, SettleAction)>)

  function Rule(s: State, signers: set<Address>, call: Call, f: Faults): Outcome<Move> {
    match call
    case CreateEscrow(p) => CreateRule(s, signers, p, false, f)
    case CreatePooledEscrow(p) => CreatePooledRule(s, signers, p)
    case TopUpEscrow(id, caller, amount) => TopUpRule(s, signers, id, caller, amount, f)
    case ContributeTo(id, caller, amount) => ContributeRule(s, signers, id, caller, amount, f)
    case ClaimRefund(id, caller) => ClaimRule(s, signers, id, caller, f)
    case AcceptEscrow(id, caller) => AcceptRule(s, signers, id, caller)
    case RotateReleaser(id, caller, releaser) => RotateRule(s, signers, id, caller, releaser)
    case TransferPayee(id, caller, payee) => TransferPayeeRule(s, signers, id, caller, payee)
    case Release(id, caller) => ReleaseRule(s, signers, id, caller, f)
    case ReleaseWithApprovals(id, approvers) => ReleaseWithApprovalsRule(s, signers, id, approvers, f)
    case Refund(id, caller) => RefundRule(s, signers, id, caller, f)
    case RefundWithApprovals(id, approvers) => RefundWithApprovalsRule(s, signers, id, approvers, f)
    case CancelEscrow(id, caller) => CancelRule(s, signers, id, caller, f)
    case SwitchPause(caller, flag) => PauseRule(s, signers, caller, flag)
  }

  // ---- batches -----------------------------------------------------------

  function Next(s: State, m: Move): State { if Fits(s, m) then After(s, m) else s }

  function AfterAll(s: State, moves: seq<Move>): State {
    if moves == [] then s else Next(AfterAll(s, moves[..|moves| - 1]), moves[|moves| - 1])
  }

  function FaultAt(faults: seq<Faults>, i: nat): Faults { if i < |faults| then faults[i] else NO_FAULTS }

  function ItemParams(payer: Address, item: Item): CreateParams {
    CreateParams(payer, item.payee, item.token, item.amount, item.conditionRef, [item.releaser], 1,
                 item.refundAfter, false, false, None, None, None, None)
  }

  /** `create_escrows` after its checks: one creation per item, all or nothing. */
  function CreateAll(s: State, signers: set<Address>, payer: Address, items: seq<Item>, faults: seq<Faults>): Outcome<seq<Move>> {
    if items == [] then Ok([])
    else
      var n := |items| - 1;
      var moves :- CreateAll(s, signers, payer, items[..n], faults);
      var m :- CreateRule(AfterAll(s, moves), signers, ItemParams(payer, items[n]), true, FaultAt(faults, n));
      Ok(moves + [m])
  }

  /** The moves of a `settle_many` batch and one result per operation, in order. */
  datatype Settlement = Settlement(moves: seq<Move>, results: seq<Outcome<()>>)

  function SettleAll(s: State, caller: Address, ops: seq<(nat, SettleAction)>, faults: seq<Faults>): Outcome<Settlement> {
    if ops == [] then Ok(Settlement([], []))
    else
      var n := |ops| - 1;
      var done :- SettleAll(s, caller, ops[..n], faults);
      match SettleOneRule(AfterAll(s, done.moves), ops[n].0, caller, ops[n].1, FaultAt(faults, n))
      case Ok(m) => Ok(Settlement(done.moves + [m], done.results + [Ok(())]))
      case Err(e) => Ok(Settlement(done.moves, done.results + [Err(e)]))
      case Trap => Trap
  }

  function CreateEscrowsRule(s: State, signers: set<Address>, payer: Address, items: seq<Item>, faults: seq<Faults>): Outcome<seq<Move>> {
    var _ :- Require(|items| <= MAX_BATCH_SIZE, BatchTooLarge);
    var _ :- RequireAuth(signers, payer);
    CreateAll(s, signers, payer, items, faults)
  }

  function SettleManyRule(s: State, signers: set<Address>, caller: Address, ops: seq<(nat, SettleAction)>, faults: seq<Faults>)
    : Outcome<Settlement>
  {
    var _ :- Require(|ops| <= MAX_SETTLE_OPS, BatchTooLarge);
    var _ :- RequireAuth(signers, caller);
    SettleAll(s, caller, ops, faults)
  }

  function Exec(s: State, signers: set<Address>, op: Operation, faults: seq<Faults>): Outcome<seq<Move>> {
    match op
    case Single(call) => var m :- Rule(s, signers, call, FaultAt(faults, 0)); Ok([m])
    case CreateEscrows(payer, items) => CreateEscrowsRule(s, signers, payer, items, faults)
    case SettleMany(caller, ops) => var done :- SettleManyRule(s, signers, caller, ops, faults); Ok(done.moves)
  }

  // ---- steps and runs ----------------------------------------------------

  /**
   * A signed invocation, the ledger clock moving on, or outside token activity,
   * which may do anything honest tokens can except take from the contract.
   */
  datatype Step =
    | Invoke(signers: set<Address>, op: Operation, faults: seq<Faults>)
    | Tick(now: nat)
    | TokenActivity(balances: Balances)

  ghost predicate OutsideActivity(s: State, b: Balances) {
    HonestTokens(b) && forall t: Address :: Balance(b, t, Contract) >= Balance(s.balances, t, Contract)
  }

  /** A call that fails leaves everything as it was. */
  ghost function Take(s: State, step: Step): State {
    match step
    case Invoke(signers, op, faults) =>
      (match Exec(s, signers, op, faults) case Ok(moves) => AfterAll(s, moves) case _ => s)
    case Tick(now) => if now >= s.now then s.(now := now) else s
    case TokenActivity(b) => if OutsideActivity(s, b) then s.(balances := b) else s
  }

  ghost function Run(s: State, steps: seq<Step>): State {
    if steps == [] then s else Take(Run(s, steps[..|steps| - 1]), steps[|steps| - 1])
  }

  /** A freshly deployed contract; the constructor fixes the allowlist and the custodian. */
  ghost predicate Deployed(s: State) {
    && s == State(map[], map[], map[], map[], map[], 0, false, s.allowedTokens, s.pauseAdmin, s.balances, [], s.now)
    && HonestTokens(s.balances)
  }

  // ---- every successful rule is a permitted move -------------------------

  lemma {:induction false} ScanMeaning(e: Escrow, approvers: seq<Address>, signers: set<Address>)
    ensures ScanApprovals(e, approvers, signers).Ok? <==>
              && (forall i :: 0 <= i < |approvers| ==> approvers[i] in e.releasers && CanSign(signers, approvers[i]))
              && !HasDuplicates(approvers)
  {
    if approvers != [] {
      var n := |approvers| - 1;
      ScanMeaning(e, approvers[..n], signers);
      assert approvers == approvers[..n] + [approvers[n]];
      if ScanApprovals(e, approvers, signers).Ok? {
        forall i, j | 0 <= i < j < |approvers| ensures approvers[i] != approvers[j] {
          assert approvers[i] in approvers[..n];
        }
      } else if !HasDuplicates(approvers) {
        assert !HasDuplicates(approvers[..n]);
        assert approvers[n] !in approvers[..n];
      }
    }
  }

  lemma SingleCallerQuorum(e: Escrow, caller: Address, signers: set<Address>)
    requires CheckSingleCaller(e, caller).Ok? && CanSign(signers, caller)
    ensures QuorumSigned(e, signers)
  {
    SubsetCount({caller}, set a | a in e.releasers && CanSign(signers, a));
  }

  lemma ApprovalsQuorum(e: Escrow, approvers: seq<Address>, signers: set<Address>)
    requires CheckApprovals(e, approvers, signers).Ok?
    ensures QuorumSigned(e, signers)
  {
    ScanMeaning(e, approvers, signers);
    DistinctCount(approvers);
    SubsetCount(set a | a in approvers, set a | a in e.releasers && CanSign(signers, a));
  }

  lemma CreatePermits(s: State, signers: set<Address>, p: CreateParams, payerAuthorized: bool, f: Faults)
    requires payerAuthorized ==> CanSign(signers, p.payer)
    ensures var r := CreateRule(s, signers, p, payerAuthorized, f);
            r.Ok? ==> r.value == Open(NewEscrow(p)) && MayOpen(s, NewEscrow(p), signers)
  {
  }

  lemma CreatePooledPermits(s: State, signers: set<Address>, p: PoolParams)
    ensures var r := CreatePooledRule(s, signers, p);
            r.Ok? ==> Permitted(s, signers, r.value)
  {
  }

  lemma SettlementPermits(s: State, signers: set<Address>, call: Call, f: Faults)
    requires call.Release? || call.ReleaseWithApprovals? || call.Refund? || call.RefundWithApprovals? || call.CancelEscrow?
    ensures var r := Rule(s, signers, call, f);
            r.Ok? ==> Permitted(s, signers, r.value) && r.value.Settle? && r.value.id == call.id
  {
    hide QuorumSigned, CheckSingleCaller, CheckApprovals, Deliver, Fee, CanSign;
    if call.id in s.escrows {
      var e := s.escrows[call.id];
      if !call.ReleaseWithApprovals? && !call.RefundWithApprovals? {
        if CheckSingleCaller(e, call.caller).Ok? && CanSign(signers, call.caller) {
          SingleCallerQuorum(e, call.caller, signers);
        }
      } else if CheckApprovals(e, call.approvers, signers).Ok? {
        ApprovalsQuorum(e, call.approvers, signers);
      }
    }
  }

  lemma RulePermits(s: State, signers: set<Address>, call: Call, f: Faults)
    ensures var r := Rule(s, signers, call, f);
            r.Ok? ==> Permitted(s, signers, r.value)
  {
    hide QuorumSigned, CheckSingleCaller, CheckApprovals, Deliver, Fee, WellFormed, CheckReleaserSet, CheckFeeTerms, CanSign, FeeShare;
    match call
    case CreateEscrow(p) => CreatePermits(s, signers, p, false, f);
    case CreatePooledEscrow(p) => CreatePooledPermits(s, signers, p);
    case Release(_, _) => SettlementPermits(s, signers, call, f);
    case ReleaseWithApprovals(_, _) => SettlementPermits(s, signers, call, f);
    case Refund(_, _) => SettlementPermits(s, signers, call, f);
    case RefundWithApprovals(_, _) => SettlementPermits(s, signers, call, f);
    case CancelEscrow(_, _) => SettlementPermits(s, signers, call, f);
    case _ =>
  }
}
