// Batches mean the same as making the single calls one after another.
module EscrowBatch {
  import opened Prelude
  import opened EscrowTypes
  import opened EscrowRules
  import opened EscrowMoves
  import opened EscrowSafety
  import opened EscrowRuns
  import opened EscrowTraces
  import opened EscrowSuccess
  import opened EscrowHistory
  import opened EscrowExit
  import opened EscrowCalls

  // ---- settle_many -------------------------------------------------------

  function SingleCall(op: (nat, SettleAction), caller: Address): Call {
    if op.1 == DoRelease then Release(op.0, caller) else Refund(op.0, caller)
  }

  /** The single calls in order; a call that fails leaves the state alone. */
  datatype Folded = Folded(state: State, results: seq<Outcome<()>>)

  ghost function FoldSingles(s: State, signers: set<Address>, caller: Address, ops: seq<(nat, SettleAction)>): Folded {
    if ops == [] then Folded(s, [])
    else
      var n := |ops| - 1;
      var before := FoldSingles(s, signers, caller, ops[..n]);
      match Rule(before.state, signers, SingleCall(ops[n], caller), NO_FAULTS)
      case Ok(m) => Folded(Next(before.state, m), before.results + [Ok(())])
      case Err(e) => Folded(before.state, before.results + [Err(e)])
      case Trap => Folded(before.state, before.results + [Trap])
  }

  /**
   * The one difference: `refund` lets the stored payee refund without being a
   * releaser and announces it; a batch operation does neither.
   */
  predicate PayeeShortcut(s: State, id: nat, caller: Address, action: SettleAction) {
    && action == DoRefund
    && id in s.escrows && id !in s.pooled
    && var e := s.escrows[id];
    && caller == e.payee
    && (e.status == Funded || !(TimedOut(s, e) || (caller in e.releasers && e.threshold == 1)))
  }

  /** A batch operation and the single call it mirrors answer alike exactly off the payee's shortcut. */
  lemma OneMirrorsSingle(s: State, signers: set<Address>, caller: Address, op: (nat, SettleAction))
    requires Inv(s) && CanSign(signers, caller)
    ensures SettleOneRule(s, op.0, caller, op.1, NO_FAULTS) == Rule(s, signers, SingleCall(op, caller), NO_FAULTS)
            <==> !PayeeShortcut(s, op.0, caller, op.1)
    ensures SettleOneRule(s, op.0, caller, op.1, NO_FAULTS) != Trap
  {
    hide Inv, SettleRule, FeeShare, Fee;
    if op.0 in s.escrows && s.escrows[op.0].status == Funded {
      SettleOutcome(s, op.0, Released, false, NO_FAULTS);
      SettleOutcome(s, op.0, Refunded, false, NO_FAULTS);
      SettleOutcome(s, op.0, Refunded, true, NO_FAULTS);
    }
  }

  /** A payee who is not a releaser: the single refund pays out, the batch refuses. */
  lemma PayeeShortcutDiffers(s: State, id: nat)
    requires Inv(s) && id in s.escrows && id !in s.pooled
    requires var e := s.escrows[id];
             && e.status == Funded && e.payee == Party(2) && e.releasers == [Party(3)] && e.refundAfter == None
    ensures Rule(s, {Party(2)}, Refund(id, Party(2)), NO_FAULTS) == Ok(Settle(id, Refunded, true))
    ensures SettleOneRule(s, id, Party(2), DoRefund, NO_FAULTS) == Err(Unauthorized)
  {
    hide Inv, SettleRule;
    SettleOutcome(s, id, Refunded, true, NO_FAULTS);
    assert Fee(s.escrows[id], Refunded) == 0;
  }

  /** Payer 1, payee 2, releaser 3. */
  function ShortcutTerms(): CreateParams {
    CreateParams(Party(1), Party(2), Party(9), 5, "", [Party(3)], 1, None, false, false, None, None, None, None)
  }

  /** The difference shows after a single creation on a fresh deployment. */
  lemma PayeeShortcutReachable(s: State)
    requires Deployed(s) && s.allowedTokens == [] && Balance(s.balances, Party(9), Party(1)) >= 5
    ensures var t := Run(s, [Invoke({Party(1)}, Single(CreateEscrow(ShortcutTerms())), [])]);
            && PayeeShortcut(t, 0, Party(2), DoRefund)
            && Rule(t, {Party(2)}, Refund(0, Party(2)), NO_FAULTS) == Ok(Settle(0, Refunded, true))
            && SettleOneRule(t, 0, Party(2), DoRefund, NO_FAULTS) == Err(Unauthorized)
  {
    hide Inv, Run, Deployed, Rule, SettleOneRule;
    var t := FirstEscrow(s, ShortcutTerms());
    PayeeShortcutDiffers(t, 0);
  }

  /** No refund operation is asked for by the payee of its escrow. */
  predicate NoPayeeRefunds(s: State, caller: Address, ops: seq<(nat, SettleAction)>) {
    forall i :: 0 <= i < |ops| && ops[i].1 == DoRefund && ops[i].0 in s.escrows ==> caller != s.escrows[ops[i].0].payee
  }

  lemma {:induction false} FoldState(s: State, signers: set<Address>, caller: Address, ops: seq<(nat, SettleAction)>)
    requires Inv(s) && CanSign(signers, caller)
    ensures var b := SettleAll(s, caller, ops, []);
            && b.Ok? && |b.value.results| == |ops|
            && var t := AfterAll(s, b.value.moves);
            && Inv(t) && t.escrows.Keys == s.escrows.Keys
            && (forall id :: id in s.escrows ==> t.escrows[id].payee == s.escrows[id].payee)
    ensures NoPayeeRefunds(s, caller, ops) ==>
              var b, f := SettleAll(s, caller, ops, []), FoldSingles(s, signers, caller, ops);
              AfterAll(s, b.value.moves) == f.state && b.value.results == f.results
  {
    hide Inv, SettleOneRule, Rule, Next, NoPayeeRefunds;
    if ops != [] {
      var n := |ops| - 1;
      FoldState(s, signers, caller, ops[..n]);
      var b := SettleAll(s, caller, ops[..n], []).value;
      var t := AfterAll(s, b.moves);
      FoldOne(t, signers, caller, ops[n]);
      var one := SettleOneRule(t, ops[n].0, caller, ops[n].1, NO_FAULTS);
      if one.Ok? { AfterMore(s, b.moves, one.value); }
      if NoPayeeRefunds(s, caller, ops) {
        LastOp(s, t, caller, ops);
      }
    }
  }

  lemma LastOp(s: State, t: State, caller: Address, ops: seq<(nat, SettleAction)>)
    requires ops != [] && NoPayeeRefunds(s, caller, ops)
    requires t.escrows.Keys == s.escrows.Keys && forall id :: id in s.escrows ==> t.escrows[id].payee == s.escrows[id].payee
    ensures NoPayeeRefunds(s, caller, ops[..|ops| - 1])
    ensures !PayeeShortcut(t, ops[|ops| - 1].0, caller, ops[|ops| - 1].1)
  {
  }

  lemma FoldOne(t: State, signers: set<Address>, caller: Address, op: (nat, SettleAction))
    requires Inv(t) && CanSign(signers, caller)
    ensures var one := SettleOneRule(t, op.0, caller, op.1, NO_FAULTS);
            && one != Trap
            && (one == Rule(t, signers, SingleCall(op, caller), NO_FAULTS) <==> !PayeeShortcut(t, op.0, caller, op.1))
            && (one.Ok? ==>
                  && Inv(Next(t, one.value))
                  && Next(t, one.value).escrows.Keys == t.escrows.Keys
                  && forall id :: id in t.escrows ==> Next(t, one.value).escrows[id].payee == t.escrows[id].payee)
  {
    hide Inv, SettleOneRule, Rule, PayeeShortcut, Next;
    OneMirrorsSingle(t, signers, caller, op);
    if SettleOneRule(t, op.0, caller, op.1, NO_FAULTS).Ok? {
      SettleMarks(t, signers, caller, op.0, op.1, NO_FAULTS);
    }
  }

  /** What one accepted batch operation does to the records. */
  lemma SettleMarks(t: State, signers: set<Address>, caller: Address, id: nat, action: SettleAction, f: Faults)
    requires Inv(t) && CanSign(signers, caller) && SettleOneRule(t, id, caller, action, f).Ok?
    ensures var u := Next(t, SettleOneRule(t, id, caller, action, f).value);
            && Inv(u) && u.escrows.Keys == t.escrows.Keys
            && id in t.escrows && u.escrows[id].status != Funded
            && (forall j :: j in t.escrows ==>
                  u.escrows[j].payee == t.escrows[j].payee
                  && (t.escrows[j].status != Funded ==> u.escrows[j].status != Funded))
  {
    hide Inv, SettleOneRule, Permitted, Next;
    SettleOnePermits(t, signers, id, caller, action, f);
    var m := SettleOneRule(t, id, caller, action, f).value;
    MoveKeepsInv(t, signers, m);
    SettleRewrites(t, signers, m);
  }

  /**
   * `settle_many` takes at most twelve operations. It never aborts while tokens
   * and payees answer, and it is the fold of the single `release` and `refund`
   * calls over its operations.
   */
  lemma SettleManyRefinesSingles(s: State, signers: set<Address>, caller: Address, ops: seq<(nat, SettleAction)>)
    requires Inv(s)
    ensures var b := SettleManyRule(s, signers, caller, ops, []);
            if |ops| > 12 then b == Err(BatchTooLarge)
            else if !Signed(signers, caller) then b == Trap
            else
              && b.Ok? && |b.value.results| == |ops|
              && (NoPayeeRefunds(s, caller, ops) ==>
                    var f := FoldSingles(s, signers, caller, ops);
                    AfterAll(s, b.value.moves) == f.state && b.value.results == f.results)
  {
    hide Inv, SettleAll, NoPayeeRefunds, FoldSingles, AfterAll;
    if Signed(signers, caller) { FoldState(s, signers, caller, ops); }
  }

  /** One operation settles exactly when the caller is a lone releaser of an escrow that can be paid out,
      or, for a refund, when its deadline has passed. */
  lemma OperationSettles(s: State, signers: set<Address>, id: nat, caller: Address, action: SettleAction, f: Faults)
    requires Inv(s) && Signed(signers, caller)
    ensures var r := SettleOneRule(s, id, caller, action, f);
            match action
            case DoRelease =>
              && (r.Ok? <==> Releasable(s, id, f) && LoneReleaser(s.escrows[id], caller))
              && (r.Ok? ==> r.value == Settle(id, Released, false))
            case DoRefund =>
              && (r.Ok? <==> Returnable(s, id, f) && (Expired(s, s.escrows[id]) || LoneReleaser(s.escrows[id], caller)))
              && (r.Ok? ==> r.value == Settle(id, Refunded, false))
  {
    hide Inv, SettleRule, Fee, FeeOf;
    if id in s.escrows {
      FeeIsFloor(s, id);
      if s.escrows[id].status == Funded {
        SettleOutcome(s, id, Released, false, f);
        SettleOutcome(s, id, Refunded, false, f);
      }
    }
  }

  /** Once an operation of a batch has settled an id, no later one settles it again. */
  lemma {:induction false} SettledOncePerBatch(s: State, signers: set<Address>, caller: Address, ops: seq<(nat, SettleAction)>, faults: seq<Faults>, i: nat, j: nat)
    requires Inv(s) && CanSign(signers, caller) && i < j < |ops| && ops[i].0 == ops[j].0
    requires SettleAll(s, caller, ops, faults).Ok?
    ensures var results := SettleAll(s, caller, ops, faults).value.results;
            |results| == |ops| && (results[i].Ok? ==> results[j].Err?)
  {
    hide Inv, SettleOneRule, AfterAll;
    SettleAllMarks(s, signers, caller, ops[..j], faults, i);
    SettleAllPrefix(s, signers, caller, ops, faults, j + 1);
    SettleAllPrefix(s, signers, caller, ops, faults, j);
    var before := SettleAll(s, caller, ops[..j], faults).value;
    assert ops[..j + 1][..j] == ops[..j];
    if before.results[i].Ok? {
      SettledRejected(AfterAll(s, before.moves), ops[j].0, caller, ops[j].1, FaultAt(faults, j));
    }
  }

  lemma SettledRejected(t: State, id: nat, caller: Address, action: SettleAction, f: Faults)
    requires id in t.escrows && t.escrows[id].status != Funded
    ensures !SettleOneRule(t, id, caller, action, f).Ok?
  {
    hide SettleRule;
  }

  /** Results of a longer batch begin with those of its prefix. */
  lemma {:induction false} SettleAllPrefix(s: State, signers: set<Address>, caller: Address, ops: seq<(nat, SettleAction)>, faults: seq<Faults>, n: nat)
    requires n <= |ops| && CanSign(signers, caller) && SettleAll(s, caller, ops, faults).Ok?
    ensures var part := SettleAll(s, caller, ops[..n], faults);
            && part.Ok? && |part.value.results| == n
            && |SettleAll(s, caller, ops, faults).value.results| == |ops|
            && part.value.results == SettleAll(s, caller, ops, faults).value.results[..n]
  {
    hide SettleOneRule, AfterAll;
    if n == |ops| {
      assert ops[..n] == ops;
      SettleAllPermits(s, signers, caller, ops, faults);
    } else {
      var shorter := ops[..|ops| - 1];
      assert shorter[..n] == ops[..n];
      SettleAllPrefix(s, signers, caller, shorter, faults, n);
    }
  }

  /** After a batch prefix, every operation reported `Ok` has left its escrow settled. */
  lemma {:induction false} SettleAllMarks(s: State, signers: set<Address>, caller: Address, ops: seq<(nat, SettleAction)>, faults: seq<Faults>, i: nat)
    requires Inv(s) && CanSign(signers, caller) && i < |ops|
    ensures var r := SettleAll(s, caller, ops, faults);
            r.Ok? ==>
              && |r.value.results| == |ops|
              && Inv(AfterAll(s, r.value.moves))
              && (r.value.results[i].Ok? ==>
                    ops[i].0 in AfterAll(s, r.value.moves).escrows
                    && AfterAll(s, r.value.moves).escrows[ops[i].0].status != Funded)
  {
    hide Inv, SettleOneRule, Next, PermittedAll;
    SettleAllPermits(s, signers, caller, ops, faults);
    var n := |ops| - 1;
    var before := SettleAll(s, caller, ops[..n], faults);
    if before.Ok? {
      SettleAllInv(s, signers, caller, ops[..n], faults);
      var t := AfterAll(s, before.value.moves);
      var one := SettleOneRule(t, ops[n].0, caller, ops[n].1, FaultAt(faults, n));
      if i < n { SettleAllMarks(s, signers, caller, ops[..n], faults, i); }
      if one.Ok? {
        AfterMore(s, before.value.moves, one.value);
        SettleMarks(t, signers, caller, ops[n].0, ops[n].1, FaultAt(faults, n));
      }
    }
  }

  lemma {:induction false} SettleAllInv(s: State, signers: set<Address>, caller: Address, ops: seq<(nat, SettleAction)>, faults: seq<Faults>)
    requires Inv(s) && CanSign(signers, caller) && SettleAll(s, caller, ops, faults).Ok?
    ensures Inv(AfterAll(s, SettleAll(s, caller, ops, faults).value.moves))
    ensures |SettleAll(s, caller, ops, faults).value.results| == |ops|
  {
    SettleAllPermits(s, signers, caller, ops, faults);
    PermittedAllKeepsInv(s, signers, SettleAll(s, caller, ops, faults).value.moves);
  }

  lemma {:induction false} PermittedAllKeepsInv(s: State, signers: set<Address>, moves: seq<Move>)
    requires Inv(s) && PermittedAll(s, signers, moves)
    ensures Inv(AfterAll(s, moves))
  {
    hide Inv, Permitted, After, Fits;
    if moves != [] {
      PermittedAllKeepsInv(s, signers, moves[..|moves| - 1]);
      MoveKeepsInv(AfterAll(s, moves[..|moves| - 1]), signers, moves[|moves| - 1]);
    }
  }

  // ---- create_escrows ----------------------------------------------------

  /** Single creations in order, each signed for on its own; the first failure ends the batch. */
  function CreateEach(s: State, signers: set<Address>, payer: Address, items: seq<Item>, faults: seq<Faults>): Outcome<seq<Move>> {
    if items == [] then Ok([])
    else
      var n := |items| - 1;
      var moves :- CreateEach(s, signers, payer, items[..n], faults);
      var m :- Rule(AfterAll(s, moves), signers, CreateEscrow(ItemParams(payer, items[n])), FaultAt(faults, n));
      Ok(moves + [m])
  }

  lemma {:induction false} CreateAllIsEach(s: State, signers: set<Address>, payer: Address, items: seq<Item>, faults: seq<Faults>)
    requires CanSign(signers, payer)
    ensures CreateAll(s, signers, payer, items, faults) == CreateEach(s, signers, payer, items, faults)
  {
    if items != [] {
      var n := |items| - 1;
      CreateAllIsEach(s, signers, payer, items[..n], faults);
      hide CreateChecks, TransferIn, AfterAll;
    }
  }

  ghost predicate Stored(s: State, id: nat, e: Escrow) { id in s.escrows && s.escrows[id] == e }

  /** Record `e` is what item `item` of a batch paid by `payer` asks for, field by field. */
  ghost predicate ItemAsAsked(e: Escrow, payer: Address, item: Item) {
    && e.payer == payer && e.payee == item.payee && e.token == item.token && e.amount == item.amount
    && e.conditionRef == item.conditionRef && e.releasers == [item.releaser] && e.threshold == 1
    && e.refundAfter == item.refundAfter && e.releaseNotBefore == None
    && !e.notifyPayee && !e.requiresAcceptance && e.feeRecipient == None && e.feeBps == None
    && e.refundTo == payer && e.status == Funded && e.acceptedAt == None
  }

  /**
   * `create_escrows` takes at most sixteen items and is the fold of the single
   * creations: it fails as the first failing one would, and otherwise stores
   * what item `i` asks for under id `nextId + i`.
   */
  lemma CreateEscrowsRefinesSingles(s: State, signers: set<Address>, payer: Address, items: seq<Item>, faults: seq<Faults>)
    requires Inv(s)
    ensures var r := CreateEscrowsRule(s, signers, payer, items, faults);
            if |items| > 16 then r == Err(BatchTooLarge)
            else if !Signed(signers, payer) then r == Trap
            else
              && r == CreateEach(s, signers, payer, items, faults)
              && (r.Ok? ==>
                    var t := AfterAll(s, r.value);
                    && t.nextId == s.nextId + |items|
                    && forall i :: 0 <= i < |items| ==> StoresItem(t, s.nextId + i, payer, items[i]))
  {
    hide Inv, CreateAll, CreateEach, AfterAll, PermittedAll, ItemAsAsked;
    if Signed(signers, payer) {
      CreateAllIsEach(s, signers, payer, items, faults);
      var r := CreateAll(s, signers, payer, items, faults);
      CreateAllPermits(s, signers, payer, items, faults);
      if r.Ok? {
        forall m | m in r.value ensures m.Open? {
          var i :| 0 <= i < |r.value| && r.value[i] == m;
        }
        OpenedInOrder(s, r.value);
        var t := AfterAll(s, r.value);
        forall i | 0 <= i < |items| ensures StoresItem(t, s.nextId + i, payer, items[i]) {
          assert r.value[i] == Open(NewEscrow(ItemParams(payer, items[i])));
          ItemStored(payer, items[i]);
        }
      }
    }
  }

  ghost predicate StoresItem(s: State, id: nat, payer: Address, item: Item) {
    id in s.escrows && ItemAsAsked(s.escrows[id], payer, item)
  }

  lemma ItemStored(payer: Address, item: Item)
    ensures ItemAsAsked(NewEscrow(ItemParams(payer, item)), payer, item)
  {
  }

  lemma {:induction false} OpenedInOrder(s: State, moves: seq<Move>)
    requires forall m :: m in moves ==> m.Open?
    ensures var t := AfterAll(s, moves);
            && t.nextId == s.nextId + |moves|
            && forall i :: 0 <= i < |moves| ==> Stored(t, s.nextId + i, moves[i].data)
  {
    hide Next;
    if moves != [] {
      var n := |moves| - 1;
      assert forall m :: m in moves[..n] ==> m in moves;
      OpenedInOrder(s, moves[..n]);
      OpenInserts(AfterAll(s, moves[..n]), moves[n]);
      var t := AfterAll(s, moves);
      forall i | 0 <= i < |moves| ensures Stored(t, s.nextId + i, moves[i].data) {
        if i < n { assert moves[..n][i] == moves[i]; }
      }
    }
  }

  lemma OpenInserts(t: State, m: Move)
    requires m.Open?
    ensures Next(t, m).nextId == t.nextId + 1 && Next(t, m).escrows == t.escrows[t.nextId := m.data]
  {
    hide Transfer, Credit;
  }
}
