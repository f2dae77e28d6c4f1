// Funds are never stuck, with one exact exception: an escrow whose every way
// out needs the signature of the contract's own address.
module EscrowExit {
  import opened Prelude
  import opened EscrowTypes
  import opened EscrowRules
  import opened EscrowMoves
  import opened EscrowSafety
  import opened EscrowRuns
  import opened EscrowTraces
  import opened EscrowSuccess
  import opened EscrowHistory

  /** The stored releasers that have a key. */
  function Keyholders(releasers: seq<Address>): seq<Address> {
    if releasers == [] then []
    else
      var n := |releasers| - 1;
      Keyholders(releasers[..n]) + if releasers[n] == Contract then [] else [releasers[n]]
  }

  /**
   * Some party other than the contract itself can still move the money out:
   * the payee, anybody after a deadline, the payer before acceptance, a quorum
   * of keyholders; for a pool, its contributors or its releaser.
   */
  predicate HasExit(s: State, id: nat)
    requires id in s.escrows
  {
    var e := s.escrows[id];
    e.status != Funded || e.amount == 0
    || if id in s.pooled then e.amount < s.pooled[id].target || |Keyholders(e.releasers)| >= 1
       else e.payee != Contract || e.refundAfter.Some? || e.requiresAcceptance
            || |Keyholders(e.releasers)| >= e.threshold
  }

  ghost predicate Drained(s: State) { forall token: Address :: Liability(s, token) == 0 }

  predicate Idle(e: Escrow) { e.status != Funded || e.amount == 0 }

  // ---- keyholders --------------------------------------------------------

  lemma {:induction false} KeyholderFacts(releasers: seq<Address>)
    ensures var k := Keyholders(releasers);
            && |k| <= |releasers|
            && (forall a :: a in k <==> a in releasers && a != Contract)
            && (!HasDuplicates(releasers) ==> !HasDuplicates(k))
  {
    if releasers != [] {
      var n := |releasers| - 1;
      var before := releasers[..n];
      KeyholderFacts(before);
      assert releasers == before + [releasers[n]];
      if !HasDuplicates(releasers) {
        assert !HasDuplicates(before);
        assert releasers[n] !in before;
        var k := Keyholders(releasers);
        forall i, j | 0 <= i < j < |k| ensures k[i] != k[j] {
          assert k[i] in Keyholders(before);
        }
      }
    }
  }

  lemma {:induction false} ElementsCount(list: seq<Address>)
    ensures |set a | a in list| <= |list|
  {
    if list != [] {
      var n := |list| - 1;
      ElementsCount(list[..n]);
      assert (set a | a in list) == (set a | a in list[..n]) + {list[n]};
    }
  }

  /** Whoever signs, a quorum is drawn from the keyholders. */
  lemma QuorumIsKeyholders(e: Escrow, signers: set<Address>)
    requires QuorumSigned(e, signers)
    ensures |Keyholders(e.releasers)| >= e.threshold
  {
    KeyholderFacts(e.releasers);
    ElementsCount(Keyholders(e.releasers));
    SubsetCount(set a | a in e.releasers && CanSign(signers, a), set a | a in Keyholders(e.releasers));
  }

  // ---- without an exit, never drained ------------------------------------

  lemma MoveKeepsStuck(s: State, signers: set<Address>, m: Move, id: nat)
    requires Inv(s) && Permitted(s, signers, m) && id in s.escrows && !HasExit(s, id)
    ensures id in Next(s, m).escrows && !HasExit(Next(s, m), id)
  {
    hide Inv, Permitted, Next, Fits, After, Keyholders;
    FreshId(s);
    PermittedFits(s, signers, m);
    MoveFrame(s, m, id);
    if Names(m, id) {
      StuckRecord(s, signers, m);
    }
  }

  lemma StuckRecord(s: State, signers: set<Address>, m: Move)
    requires Inv(s) && Permitted(s, signers, m) && !m.Open? && !m.OpenPool? && !m.SetPaused?
    requires m.id in s.escrows && !HasExit(s, m.id)
    ensures Fits(s, m)
    ensures var e, e' := s.escrows[m.id], Rewritten(s, m);
            && e'.status == Funded && e'.amount >= e.amount > 0 && e'.releasers == e.releasers
            && (m.id in s.pooled ==> e'.amount == e.amount)
            && (m.id !in s.pooled ==> e'.payee == e.payee)
            && e'.refundAfter == e.refundAfter && e'.requiresAcceptance == e.requiresAcceptance && e'.threshold == e.threshold
  {
    hide Inv, QuorumSigned, WellFormed, Keyholders, Balance;
    var e := s.escrows[m.id];
    RecordFacts(s, m.id);
    KeyholderFacts(e.releasers);
    assert e.releasers != [] && e.releasers[0] != Contract ==> e.releasers[0] in Keyholders(e.releasers);
    if m.Settle? && QuorumSigned(e, signers) {
      QuorumIsKeyholders(e, signers);
    }
  }

  lemma AtomKeepsStuck(s: State, a: Atom, id: nat)
    requires Inv(s) && Lawful(s, a) && id in s.escrows && !HasExit(s, id)
    ensures id in Then(s, a).escrows && !HasExit(Then(s, a), id)
  {
    hide Inv, Permitted, Next, Keyholders;
    if a.Act? { MoveKeepsStuck(s, a.signers, a.move, id); }
  }

  /** An escrow without an exit keeps its money in every continuation. */
  lemma StuckForever(s: State, steps: seq<Step>, id: nat)
    requires Inv(s) && id in s.escrows && !HasExit(s, id)
    ensures var t := Run(s, steps); id in t.escrows && !HasExit(t, id) && !Drained(t)
  {
    ghost var P := (t: State) => Inv(t) && id in t.escrows && !HasExit(t, id);
    hide Inv, Lawful, Then, Keyholders, Run;
    forall t, a | P(t) && Lawful(t, a) ensures P(Then(t, a)) {
      AtomKeepsInv(t, a);
      AtomKeepsStuck(t, a, id);
    }
    KeptOverRuns(s, steps, P);
    var t := Run(s, steps);
    RecordFacts(t, id);
    AmountWithinLiability(t, id);
    assert Liability(t, t.escrows[id].token) > 0;
  }

  // ---- with an exit, a drained continuation ------------------------------

  lemma {:induction false} RunConcat(s: State, xs: seq<Step>, ys: seq<Step>)
    ensures Run(s, xs + ys) == Run(Run(s, xs), ys)
  {
    hide Take;
    if ys == [] {
      assert xs + ys == xs;
    } else {
      var n := |ys| - 1;
      RunConcat(s, xs, ys[..n]);
      assert (xs + ys)[..|xs + ys| - 1] == xs + ys[..n];
    }
  }

  /** `id` is idle in `t`, and nothing the other escrows depend on has changed. */
  ghost predicate DrainedOne(s: State, t: State, id: nat) {
    && Inv(t) && t.now == s.now && t.pooled == s.pooled
    && t.escrows.Keys == s.escrows.Keys
    && (forall j :: j in s.escrows && j != id ==> t.escrows[j] == s.escrows[j])
    && id in s.escrows && Idle(t.escrows[id]) && t.escrows[id].refundAfter == s.escrows[id].refundAfter
  }

  lemma SingleStep(s: State, signers: set<Address>, call: Call, m: Move)
    requires Rule(s, signers, call, NO_FAULTS) == Ok(m)
    ensures Run(s, [Invoke(signers, Single(call), [])]) == Next(s, m)
    ensures Permitted(s, signers, m)
  {
    hide Rule, Permitted, Next;
    RulePermits(s, signers, call, NO_FAULTS);
    var step := Invoke(signers, Single(call), []);
    assert [step][..0] == [] && Run(s, []) == s;
    AfterMore(s, [], m);
    assert [] + [m] == [m];
  }

  lemma SettledIdle(s: State, signers: set<Address>, id: nat, settled: Status, byPayee: bool)
    requires Inv(s) && Permitted(s, signers, Settle(id, settled, byPayee))
    ensures DrainedOne(s, Next(s, Settle(id, settled, byPayee)), id)
  {
    hide Inv, Permitted, Next, After, Fits;
    var m := Settle(id, settled, byPayee);
    MoveKeepsInv(s, signers, m);
    SettleRewrites(s, signers, m);
  }

  ghost predicate Late(s: State, id: nat)
    requires id in s.escrows
  {
    && (id in s.pooled ==> s.now >= s.pooled[id].deadline)
    && (s.escrows[id].refundAfter.Some? ==> s.now >= s.escrows[id].refundAfter.value)
  }

  lemma DrainSingle(s: State, id: nat) returns (steps: seq<Step>)
    requires Inv(s) && id in s.escrows && id !in s.pooled && HasExit(s, id) && Late(s, id) && !Idle(s.escrows[id])
    ensures DrainedOne(s, Run(s, steps), id)
  {
    hide Inv, RefundRule, RefundWithApprovalsRule, CancelRule, Keyholders, Run, Permitted, Next, DrainedOne;
    var e := s.escrows[id];
    RecordFacts(s, id);
    var signers, call, m;
    if e.payee != Contract {
      signers, call, m := {e.payee}, Refund(id, e.payee), Settle(id, Refunded, true);
      RefundSucceeds(s, signers, id, e.payee, NO_FAULTS);
    } else if e.refundAfter.Some? {
      signers, call, m := {Party(0)}, Refund(id, Party(0)), Settle(id, Refunded, false);
      RefundSucceeds(s, signers, id, Party(0), NO_FAULTS);
    } else if e.requiresAcceptance {
      signers, call, m := {e.payer}, CancelEscrow(id, e.payer), Settle(id, Cancelled, false);
      CancelSucceeds(s, signers, id, e.payer, NO_FAULTS);
    } else {
      var approvers := Keyholders(e.releasers);
      KeyholderFacts(e.releasers);
      signers, call, m := (set a | a in approvers), RefundWithApprovals(id, approvers), Settle(id, Refunded, false);
      RefundWithApprovalsSucceeds(s, signers, id, approvers, NO_FAULTS);
    }
    steps := [Invoke(signers, Single(call), [])];
    SingleStep(s, signers, call, m);
    SettledIdle(s, signers, id, m.settled, m.byPayee);
  }

  lemma DrainFullPool(s: State, id: nat) returns (steps: seq<Step>)
    requires Inv(s) && id in s.escrows && id in s.pooled && HasExit(s, id) && !Idle(s.escrows[id])
    requires s.escrows[id].amount >= s.pooled[id].target
    ensures DrainedOne(s, Run(s, steps), id)
  {
    hide Inv, ReleaseRule, Keyholders, Run, Permitted, Next, DrainedOne;
    var e := s.escrows[id];
    RecordFacts(s, id);
    KeyholderFacts(e.releasers);
    var who := Keyholders(e.releasers)[0];
    assert who in Keyholders(e.releasers);
    ReleaseSucceeds(s, {who}, id, who, NO_FAULTS);
    steps := [Invoke({who}, Single(Release(id, who)), [])];
    SingleStep(s, {who}, Release(id, who), Settle(id, Released, false));
    SettledIdle(s, {who}, id, Released, false);
  }

  ghost function Unclaimed(s: State, id: nat): set<(nat, Address)> {
    set k | k in s.contributions && k.0 == id && !s.contributions[k].refunded
  }

  lemma NothingUnclaimed(s: State, id: nat)
    requires Inv(s) && id in s.escrows && id in s.pooled && s.escrows[id].status == Funded && Unclaimed(s, id) == {}
    ensures s.escrows[id].amount == 0
  {
    RecordFacts(s, id);
    forall k | k in s.contributions ensures PledgedTerm(id)(k, s.contributions[k]) == 0 {
      assert k !in Unclaimed(s, id);
    }
    SumZero(s.contributions, PledgedTerm(id));
  }

  lemma ClaimShrinks(s: State, signers: set<Address>, id: nat, who: Address)
    requires Inv(s) && MayClaim(s, id, who, signers)
    ensures var t := Next(s, Claim(id, who));
            && Inv(t) && t.now == s.now && t.pooled == s.pooled && t.escrows.Keys == s.escrows.Keys
            && (forall j :: j in s.escrows && j != id ==> t.escrows[j] == s.escrows[j])
            && RoundFailed(t, id)
            && t.escrows[id].refundAfter == s.escrows[id].refundAfter
            && Unclaimed(t, id) == Unclaimed(s, id) - {(id, who)}
  {
    hide Inv, GoodPool, GoodRecord, Next, After, Claimed, Balance;
    ClaimFacts(s, signers, id, who);
    ClaimKeepsInv(s, signers, id, who);
    ClaimRewrites(s, signers, id, who);
    ClaimedIsAfter(s, id, who);
  }

  lemma ClaimedIsAfter(s: State, id: nat, who: Address)
    requires id in s.escrows && (id, who) in s.contributions
    ensures After(s, Claim(id, who)) == Claimed(s, id, who)
  {
    hide Claimed;
  }

  /** Every contributor of a failed round can claim, one after another, until nothing is left. */
  lemma {:induction false} DrainFailedPool(s: State, id: nat) returns (steps: seq<Step>)
    requires Inv(s) && RoundFailed(s, id)
    ensures DrainedOne(s, Run(s, steps), id)
    decreases |Unclaimed(s, id)|
  {
    hide Inv, ClaimRule, Take, Permitted, Next;
    if Unclaimed(s, id) == {} {
      NothingUnclaimed(s, id);
      steps := [];
    } else {
      var k :| k in Unclaimed(s, id);
      var who := k.1;
      assert k == (id, who);
      ContributionFacts(s, k);
      ClaimOutcome(s, {who}, id, who, NO_FAULTS);
      SingleStep(s, {who}, ClaimRefund(id, who), Claim(id, who));
      ClaimShrinks(s, {who}, id, who);
      var first := [Invoke({who}, Single(ClaimRefund(id, who)), [])];
      var t := Next(s, Claim(id, who));
      var rest := DrainFailedPool(t, id);
      RunConcat(s, first, rest);
      steps := first + rest;
    }
  }

  lemma DrainOne(s: State, id: nat) returns (steps: seq<Step>)
    requires Inv(s) && id in s.escrows && HasExit(s, id) && Late(s, id)
    ensures DrainedOne(s, Run(s, steps), id)
  {
    hide Inv, Take, Keyholders;
    if Idle(s.escrows[id]) {
      steps := [];
    } else if id !in s.pooled {
      steps := DrainSingle(s, id);
    } else if s.escrows[id].amount >= s.pooled[id].target {
      steps := DrainFullPool(s, id);
    } else {
      steps := DrainFailedPool(s, id);
    }
  }

  ghost predicate AllExit(s: State) { forall id :: id in s.escrows ==> HasExit(s, id) }

  ghost predicate AllLate(s: State) { forall id :: id in s.escrows ==> Late(s, id) }

  ghost predicate IdleBelow(s: State, n: nat) { forall id :: id in s.escrows && id < n ==> Idle(s.escrows[id]) }

  lemma OneMore(s: State, t: State, n: nat)
    requires AllExit(s) && AllLate(s) && IdleBelow(s, n) && DrainedOne(s, t, n)
    ensures AllExit(t) && AllLate(t) && IdleBelow(t, n + 1)
  {
    hide Inv, Keyholders;
  }

  lemma {:induction false} DrainUpTo(s: State, n: nat) returns (steps: seq<Step>)
    requires Inv(s) && AllExit(s) && AllLate(s)
    ensures var t := Run(s, steps);
            Inv(t) && AllExit(t) && AllLate(t) && t.escrows.Keys == s.escrows.Keys && IdleBelow(t, n)
  {
    hide Inv, Take, AllExit, AllLate, IdleBelow, HasExit, Late;
    if n == 0 {
      steps := [];
      assert IdleBelow(s, 0) by { NoneBelowZero(s); }
    } else {
      var before := DrainUpTo(s, n - 1);
      var t := Run(s, before);
      if n - 1 in t.escrows {
        ExitAndLate(t, n - 1);
        var more := DrainOne(t, n - 1);
        RunConcat(s, before, more);
        OneMore(t, Run(t, more), n - 1);
        steps := before + more;
      } else {
        SkipAbsent(t, n - 1);
        steps := before;
      }
    }
  }

  lemma NoneBelowZero(s: State)
    ensures IdleBelow(s, 0)
  {
  }

  lemma SkipAbsent(s: State, n: nat)
    requires IdleBelow(s, n) && n !in s.escrows
    ensures IdleBelow(s, n + 1)
  {
  }

  lemma ExitAndLate(s: State, id: nat)
    requires AllExit(s) && AllLate(s) && id in s.escrows
    ensures HasExit(s, id) && Late(s, id)
  {
  }

  /** A time by which every deadline below `n` has passed. */
  ghost function Horizon(s: State, n: nat): nat {
    if n == 0 then s.now
    else
      var before, id := Horizon(s, n - 1), n - 1;
      var d1 := if id in s.pooled && s.pooled[id].deadline > before then s.pooled[id].deadline else before;
      if id in s.escrows && s.escrows[id].refundAfter.Some? && s.escrows[id].refundAfter.value > d1
      then s.escrows[id].refundAfter.value else d1
  }

  lemma {:induction false} HorizonCovers(s: State, n: nat)
    ensures Horizon(s, n) >= s.now
    ensures forall id :: id in s.escrows && id < n ==> Late(s.(now := Horizon(s, n)), id)
  {
    if n > 0 { HorizonCovers(s, n - 1); }
  }

  lemma IdleIsDrained(s: State)
    requires Inv(s) && IdleBelow(s, s.nextId)
    ensures Drained(s)
  {
    forall token: Address ensures Liability(s, token) == 0 {
      forall id | id in s.escrows ensures OwedTerm(token)(id, s.escrows[id]) == 0 {
        RecordFacts(s, id);
      }
      SumZero(s.escrows, OwedTerm(token));
    }
  }

  lemma TickLate(s: State) returns (t: State)
    requires Inv(s) && AllExit(s)
    ensures t == Run(s, [Tick(Horizon(s, s.nextId))]) && Inv(t) && AllExit(t) && AllLate(t)
  {
    hide Keyholders, Inv, Horizon;
    var late := Horizon(s, s.nextId);
    HorizonCovers(s, s.nextId);
    var step := Tick(late);
    assert [step][..0] == [] && Run(s, []) == s;
    t := Run(s, [step]);
    InvOverRuns(s, [step]);
    forall id | id in s.escrows ensures id < s.nextId {
      RecordFacts(s, id);
    }
  }

  lemma {:induction false} DrainAll(s: State) returns (steps: seq<Step>)
    requires Inv(s) && AllExit(s)
    ensures Drained(Run(s, steps))
  {
    hide Inv, Take, AllExit, AllLate, IdleBelow, Horizon;
    var t := TickLate(s);
    var more := DrainUpTo(t, t.nextId);
    var first := [Tick(Horizon(s, s.nextId))];
    RunConcat(s, first, more);
    var u := Run(t, more);
    SameCount(t, u);
    IdleIsDrained(u);
    steps := first + more;
  }

  lemma SameCount(s: State, t: State)
    requires Inv(s) && Inv(t) && s.escrows.Keys == t.escrows.Keys
    ensures s.nextId == t.nextId
  {
    assert s.nextId in t.escrows <==> s.nextId < t.nextId;
    assert t.nextId in s.escrows <==> t.nextId < s.nextId;
  }

  /**
   * No stuck funds. From a state that meets the invariant, paused or not, some
   * continuation by willing signers brings every token's liability to zero if
   * and only if each funded escrow has an exit that does not need the contract's
   * own signature.
   */
  lemma NoStuckFunds(s: State)
    requires Inv(s)
    ensures (exists steps :: Drained(Run(s, steps))) <==> (forall id :: id in s.escrows ==> HasExit(s, id))
  {
    hide Inv, Run, Drained, HasExit;
    if forall id :: id in s.escrows ==> HasExit(s, id) {
      var steps := DrainAll(s);
    } else {
      var id :| id in s.escrows && !HasExit(s, id);
      forall steps ensures !Drained(Run(s, steps)) {
        StuckForever(s, steps, id);
      }
    }
  }

  // ---- the exception is reachable ----------------------------------------

  /** Creation accepts the contract's own address as payee and as the only releaser. */
  function TrappedTerms(): CreateParams {
    CreateParams(Party(1), Contract, Party(9), 5, "", [Contract], 1, None, false, false, None, None, None, None)
  }

  /** The state after the first creation on a fresh deployment. */
  lemma FirstEscrow(s: State, p: CreateParams) returns (t: State)
    requires Deployed(s) && s.allowedTokens == [] && p.payer == Party(1) && p.amount == 5
    requires Balance(s.balances, p.token, p.payer) >= 5
    requires p == CreateParams(p.payer, p.payee, p.token, p.amount, "", p.releasers, 1, None, false, false, None, None, None, None)
    requires |p.releasers| == 1
    ensures t == Run(s, [Invoke({Party(1)}, Single(CreateEscrow(p)), [])])
    ensures Inv(t) && 0 in t.escrows && t.escrows[0] == NewEscrow(p) && t.pooled == map[] && t.now == s.now
  {
    DeployedInv(s);
    TransferInOutcome(s, p.token, p.payer, p.amount, NO_FAULTS);
    assert !HasDuplicates(p.releasers);
    assert CreateRule(s, {Party(1)}, p, false, NO_FAULTS) == Ok(Open(NewEscrow(p))) by {
      hide TransferIn, Inv;
    }
    hide Inv, CreateRule, Run, Take, Deployed;
    var m := Open(NewEscrow(p));
    SingleStep(s, {Party(1)}, CreateEscrow(p), m);
    MoveKeepsInv(s, {Party(1)}, m);
    t := Next(s, m);
    OpenStores(s, p);
  }

  lemma StuckFundsReachable(s: State)
    requires Deployed(s) && s.allowedTokens == [] && Balance(s.balances, Party(9), Party(1)) >= 5
    ensures var t := Run(s, [Invoke({Party(1)}, Single(CreateEscrow(TrappedTerms())), [])]);
            && Inv(t) && 0 in t.escrows && !HasExit(t, 0)
            && forall more :: !Drained(Run(t, more))
  {
    hide Inv, Run, Deployed;
    var t := FirstEscrow(s, TrappedTerms());
    assert Keyholders([Contract]) == [] by { assert [Contract][..0] == []; }
    forall more ensures !Drained(Run(t, more)) {
      StuckForever(t, more, 0);
    }
  }

  lemma OpenStores(s: State, p: CreateParams)
    requires Deployed(s)
    ensures var t := Next(s, Open(NewEscrow(p)));
            0 in t.escrows && t.escrows[0] == NewEscrow(p) && t.pooled == map[] && t.now == s.now
    ensures Next(s, Open(NewEscrow(p))) == After(s, Open(NewEscrow(p)))
  {
  }
}
