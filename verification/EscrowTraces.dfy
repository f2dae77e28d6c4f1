// Every run is a sequence of lawful atomic moves, so a property that each
// lawful move keeps holds over every run.
module EscrowTraces {
  import opened Prelude
  import opened EscrowTypes
  import opened EscrowRules
  import opened EscrowMoves
  import opened EscrowSafety
  import opened EscrowRuns

  datatype Atom = Act(signers: set<Address>, move: Move) | Clock(now: nat) | Tokens(balances: Balances)

  ghost predicate Lawful(s: State, a: Atom) {
    match a
    case Act(signers, m) => Permitted(s, signers, m)
    case Clock(now) => now >= s.now
    case Tokens(b) => OutsideActivity(s, b)
  }

  ghost function Then(s: State, a: Atom): State {
    match a
    case Act(_, m) => Next(s, m)
    case Clock(now) => s.(now := now)
    case Tokens(b) => s.(balances := b)
  }

  ghost function Follow(s: State, atoms: seq<Atom>): State {
    if atoms == [] then s else Then(Follow(s, atoms[..|atoms| - 1]), atoms[|atoms| - 1])
  }

  ghost predicate LawfulAll(s: State, atoms: seq<Atom>) {
    atoms == []
    || (LawfulAll(s, atoms[..|atoms| - 1])
        && Lawful(Follow(s, atoms[..|atoms| - 1]), atoms[|atoms| - 1]))
  }

  lemma FollowMore(s: State, atoms: seq<Atom>, a: Atom)
    ensures Follow(s, atoms + [a]) == Then(Follow(s, atoms), a)
    ensures LawfulAll(s, atoms + [a]) <==> LawfulAll(s, atoms) && Lawful(Follow(s, atoms), a)
  {
    assert (atoms + [a])[..|atoms|] == atoms;
  }

  lemma {:induction false} FollowConcat(s: State, xs: seq<Atom>, ys: seq<Atom>)
    requires LawfulAll(s, xs) && LawfulAll(Follow(s, xs), ys)
    ensures LawfulAll(s, xs + ys) && Follow(s, xs + ys) == Follow(Follow(s, xs), ys)
  {
    hide Lawful, Then;
    if ys == [] {
      assert xs + ys == xs;
    } else {
      var n := |ys| - 1;
      var all := xs + ys[..n];
      FollowConcat(s, xs, ys[..n]);
      FollowMore(s, all, ys[n]);
      assert xs + ys == all + [ys[n]];
    }
  }

  // ---- from calls to atoms -----------------------------------------------

  ghost predicate PermittedAll(s: State, signers: set<Address>, moves: seq<Move>) {
    moves == []
    || (PermittedAll(s, signers, moves[..|moves| - 1])
        && Permitted(AfterAll(s, moves[..|moves| - 1]), signers, moves[|moves| - 1]))
  }

  lemma AfterMore(s: State, moves: seq<Move>, m: Move)
    ensures AfterAll(s, moves + [m]) == Next(AfterAll(s, moves), m)
    ensures forall signers: set<Address> ::
              PermittedAll(s, signers, moves + [m]) <==>
              PermittedAll(s, signers, moves) && Permitted(AfterAll(s, moves), signers, m)
  {
    assert (moves + [m])[..|moves|] == moves;
  }

  lemma {:induction false} CreateAllPermits(s: State, signers: set<Address>, payer: Address, items: seq<Item>, faults: seq<Faults>)
    requires CanSign(signers, payer)
    ensures var r := CreateAll(s, signers, payer, items, faults);
            r.Ok? ==>
              && PermittedAll(s, signers, r.value)
              && |r.value| == |items|
              && forall i :: 0 <= i < |items| ==> r.value[i] == Open(NewEscrow(ItemParams(payer, items[i])))
  {
    hide CreateRule, NewEscrow, ItemParams, Permitted, PermittedAll, Next, AfterAll;
    if items == [] {
      NothingPermitted(s, signers);
    } else {
      var n := |items| - 1;
      CreateAllPermits(s, signers, payer, items[..n], faults);
      var before := CreateAll(s, signers, payer, items[..n], faults);
      if before.Ok? {
        var t, p := AfterAll(s, before.value), ItemParams(payer, items[n]);
        ItemPayer(payer, items[n]);
        CreatePermits(t, signers, p, true, FaultAt(faults, n));
        AfterMore(s, before.value, Open(NewEscrow(p)));
        PermittedOpen(t, signers, NewEscrow(p));
      }
    }
  }

  lemma NothingPermitted(s: State, signers: set<Address>)
    ensures PermittedAll(s, signers, [])
  {
  }

  lemma ItemPayer(payer: Address, item: Item)
    ensures ItemParams(payer, item).payer == payer
  {
  }

  lemma PermittedOpen(s: State, signers: set<Address>, e: Escrow)
    ensures Permitted(s, signers, Open(e)) <==> MayOpen(s, e, signers)
  {
  }

  lemma SettleOnePermits(s: State, signers: set<Address>, id: nat, caller: Address, action: SettleAction, f: Faults)
    requires CanSign(signers, caller)
    ensures var r := SettleOneRule(s, id, caller, action, f);
            r.Ok? ==> Permitted(s, signers, r.value) && r.value.Settle? && r.value.id == id
  {
    hide QuorumSigned, CheckSingleCaller, Deliver, Fee, CanSign;
    if id in s.escrows && CheckSingleCaller(s.escrows[id], caller).Ok? {
      SingleCallerQuorum(s.escrows[id], caller, signers);
    }
  }

  lemma {:induction false} SettleAllPermits(s: State, signers: set<Address>, caller: Address, ops: seq<(nat, SettleAction)>, faults: seq<Faults>)
    requires CanSign(signers, caller)
    ensures var r := SettleAll(s, caller, ops, faults);
            r.Ok? ==>
              && PermittedAll(s, signers, r.value.moves)
              && |r.value.results| == |ops|
              && (forall m :: m in r.value.moves ==> m.Settle?)
  {
    if ops != [] {
      var n := |ops| - 1;
      SettleAllPermits(s, signers, caller, ops[..n], faults);
      var before := SettleAll(s, caller, ops[..n], faults);
      if before.Ok? {
        var t := AfterAll(s, before.value.moves);
        SettleOnePermits(t, signers, ops[n].0, caller, ops[n].1, FaultAt(faults, n));
        hide SettleOneRule, Permitted, Next;
        var one := SettleOneRule(t, ops[n].0, caller, ops[n].1, FaultAt(faults, n));
        if one.Ok? { AfterMore(s, before.value.moves, one.value); }
      }
    }
  }

  /** A successful call is a chain of permitted moves: one, all creations, or all settlements. */
  lemma ExecPermits(s: State, signers: set<Address>, op: Operation, faults: seq<Faults>)
    ensures var r := Exec(s, signers, op, faults);
            r.Ok? ==>
              && PermittedAll(s, signers, r.value)
              && (|r.value| == 1
                  || (forall m :: m in r.value ==> m.Open?)
                  || (forall m :: m in r.value ==> m.Settle?))
  {
    hide Rule, Permitted, CanSign, Next;
    match op
    case Single(call) =>
      RulePermits(s, signers, call, FaultAt(faults, 0));
      var r := Rule(s, signers, call, FaultAt(faults, 0));
      if r.Ok? { AfterMore(s, [], r.value); assert [] + [r.value] == [r.value]; }
    case CreateEscrows(payer, items) =>
      if CanSign(signers, payer) { CreateAllPermits(s, signers, payer, items, faults); }
    case SettleMany(caller, ops) =>
      if CanSign(signers, caller) { SettleAllPermits(s, signers, caller, ops, faults); }
  }

  lemma {:induction false} MovesAsAtoms(s: State, signers: set<Address>, moves: seq<Move>) returns (atoms: seq<Atom>)
    requires PermittedAll(s, signers, moves)
    ensures LawfulAll(s, atoms) && Follow(s, atoms) == AfterAll(s, moves)
  {
    hide Permitted, Next;
    if moves == [] {
      atoms := [];
    } else {
      var before := MovesAsAtoms(s, signers, moves[..|moves| - 1]);
      var a := Act(signers, moves[|moves| - 1]);
      FollowMore(s, before, a);
      atoms := before + [a];
    }
  }

  lemma StepAsAtoms(s: State, step: Step) returns (atoms: seq<Atom>)
    ensures LawfulAll(s, atoms) && Follow(s, atoms) == Take(s, step)
  {
    hide Exec, Permitted, Next, OutsideActivity;
    atoms := [];
    if step.Invoke? {
      var r := Exec(s, step.signers, step.op, step.faults);
      ExecPermits(s, step.signers, step.op, step.faults);
      if r.Ok? { atoms := MovesAsAtoms(s, step.signers, r.value); }
    } else if Take(s, step) != s {
      var a := if step.Tick? then Clock(step.now) else Tokens(step.balances);
      FollowMore(s, [], a);
      assert [] + [a] == [a];
      atoms := [a];
    }
  }

  lemma {:induction false} RunAsAtoms(s: State, steps: seq<Step>) returns (atoms: seq<Atom>)
    ensures LawfulAll(s, atoms) && Follow(s, atoms) == Run(s, steps)
  {
    hide Take, Lawful, Then;
    if steps == [] {
      atoms := [];
    } else {
      var before := RunAsAtoms(s, steps[..|steps| - 1]);
      var last := StepAsAtoms(Run(s, steps[..|steps| - 1]), steps[|steps| - 1]);
      FollowConcat(s, before, last);
      atoms := before + last;
    }
  }

  // ---- properties over runs ----------------------------------------------

  ghost predicate Kept(P: State -> bool) {
    forall s, a :: P(s) && Lawful(s, a) ==> P(Then(s, a))
  }

  lemma {:induction false} KeptAlong(s: State, atoms: seq<Atom>, P: State -> bool)
    requires P(s) && Kept(P) && LawfulAll(s, atoms)
    ensures P(Follow(s, atoms))
  {
    hide Lawful, Then;
    if atoms != [] {
      KeptAlong(s, atoms[..|atoms| - 1], P);
    }
  }

  /** A property of one state that every lawful move keeps holds at the end of every run. */
  lemma KeptOverRuns(s: State, steps: seq<Step>, P: State -> bool)
    requires P(s) && Kept(P)
    ensures P(Run(s, steps))
  {
    var atoms := RunAsAtoms(s, steps);
    KeptAlong(s, atoms, P);
  }

  lemma AtomKeepsInv(s: State, a: Atom)
    requires Inv(s) && Lawful(s, a)
    ensures Inv(Then(s, a))
  {
    hide Permitted, Shape, Records, Pools, HonestTokens, WellFormed, Fits, After;
    match a
    case Act(signers, m) => MoveKeepsInv(s, signers, m);
    case Clock(_) =>
    case Tokens(b) =>
      assert forall t: Address :: Balance(b, t, Contract) >= Balance(s.balances, t, Contract);
  }

  lemma InvKept()
    ensures Kept(Inv)
  {
    forall s, a | Inv(s) && Lawful(s, a) ensures Inv(Then(s, a)) {
      AtomKeepsInv(s, a);
    }
  }

  /** The invariant holds at the end of every run from a state that meets it. */
  lemma InvOverRuns(s: State, steps: seq<Step>)
    requires Inv(s)
    ensures Inv(Run(s, steps))
  {
    hide Inv;
    InvKept();
    KeptOverRuns(s, steps, Inv);
  }

  lemma DeployedInv(s: State)
    requires Deployed(s)
    ensures Inv(s)
  {
    forall t: Address ensures Owed(s.escrows, t) == 0 {
      SumZero(s.escrows, OwedTerm(t));
    }
    assert forall t: Address :: Balance(s.balances, t, Contract) >= 0;
  }

  /**
   * Solvency of every reachable state: the counter of each token is the sum of
   * its funded amounts, the contract holds at least that much, and each cached
   * status is the record's.
   */
  lemma ReachableSolvency(s: State, steps: seq<Step>)
    requires Deployed(s)
    ensures var t := Run(s, steps);
            && (forall token: Address ::
                  Liability(t, token) == Owed(t.escrows, token) <= Balance(t.balances, token, Contract) <= I128_MAX)
            && t.status.Keys == t.escrows.Keys
            && (forall id :: id in t.escrows ==> t.status[id] == t.escrows[id].status)
  {
    DeployedInv(s);
    InvOverRuns(s, steps);
    var t := Run(s, steps);
    forall token: Address
      ensures Liability(t, token) == Owed(t.escrows, token) <= Balance(t.balances, token, Contract) <= I128_MAX
    {
      HoldersWithinSupply(t.balances, token, Contract, Contract);
    }
  }

  lemma AtomKeepsSurplus(s: State, a: Atom, token: Address)
    requires Inv(s) && Lawful(s, a)
    ensures Surplus(Then(s, a), token) >= Surplus(s, token)
  {
    hide Inv, Permitted, Fits, After;
    match a
    case Act(signers, m) => MoveKeepsSurplus(s, signers, m, token);
    case Clock(_) =>
    case Tokens(b) =>
      assert Balance(b, token, Contract) >= Balance(s.balances, token, Contract);
  }

  /** balance - liability never decreases over a run, whatever the token. */
  lemma SurplusOverRuns(s: State, steps: seq<Step>, token: Address)
    requires Inv(s)
    ensures Surplus(Run(s, steps), token) >= Surplus(s, token)
  {
    hide Inv, Lawful, Then;
    ghost var P := (t: State) => Inv(t) && Surplus(t, token) >= Surplus(s, token);
    forall t, a | P(t) && Lawful(t, a) ensures P(Then(t, a)) {
      AtomKeepsInv(t, a);
      AtomKeepsSurplus(t, a, token);
    }
    KeptOverRuns(s, steps, P);
  }
}
