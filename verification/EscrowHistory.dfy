// What a run can and cannot do to one escrow: who must have signed, what never
// changes, and what the published events add up to.
module EscrowHistory {
  import opened Prelude
  import opened EscrowTypes
  import opened EscrowRules
  import opened EscrowMoves
  import opened EscrowSafety
  import opened EscrowRuns
  import opened EscrowTraces

  // ---- what never changes ------------------------------------------------

  /** The terms of a deal: everything but the amount, the parties' rights and the outcome. */
  ghost predicate SameTerms(e: Escrow, e': Escrow) {
    e' == e.(amount := e'.amount, payee := e'.payee, releasers := e'.releasers,
             acceptedAt := e'.acceptedAt, status := e'.status)
  }

  /** How the record of `id` in a later state `t` descends from the one in `s`. */
  ghost predicate Descends(s: State, t: State, id: nat)
    requires id in s.escrows
  {
    && id in t.escrows
    && (id in t.pooled <==> id in s.pooled)
    && (id in s.pooled ==> t.pooled[id] == s.pooled[id])
    && t.now >= s.now
    && var e, e' := s.escrows[id], t.escrows[id];
    && SameTerms(e, e')
    && (e.status != Funded ==> e' == e)
    && (e.acceptedAt.Some? ==> e'.acceptedAt == e.acceptedAt)
    && (id !in s.pooled ==> e'.amount >= e.amount)
  }

  /** What one call may do to the record of `id`, and on whose signatures. */
  ghost predicate AccountedRecord(s: State, id: nat, e': Escrow, signers: set<Address>)
    requires id in s.escrows
  {
    var e := s.escrows[id];
    && (e'.status != e.status ==> e.status == Funded && MaySettle(s, id, e'.status, signers))
    && (e'.payee != e.payee ==>
          e.status == Funded && CanSign(signers, e.payee) && e'.payee != Contract && e'.payee != e.payer)
    && (e'.releasers != e.releasers ==>
          && e.status == Funded && e.threshold == 1
          && e.releasers != [] && CanSign(signers, e.releasers[0]) && CanSign(signers, e.payer)
          && |e'.releasers| == 1 && e'.releasers[0] != Contract && e'.releasers[0] != e.payee)
    && (e'.acceptedAt != e.acceptedAt ==>
          e.status == Funded && e.requiresAcceptance && e.acceptedAt.None? && CanSign(signers, e.payee))
    && (e'.amount != e.amount ==>
          && e.status == Funded
          && (id !in s.pooled ==> e'.amount > e.amount && CanSign(signers, e.payer))
          && (id in s.pooled && e'.amount > e.amount ==> s.now < s.pooled[id].deadline && e'.amount <= s.pooled[id].target)
          && (id in s.pooled && e'.amount < e.amount ==> s.now >= s.pooled[id].deadline && e.amount < s.pooled[id].target))
  }

  /** The record a move names, as the move leaves it. */
  function Rewritten(s: State, m: Move): Escrow
    requires Fits(s, m) && !m.Open? && !m.OpenPool? && !m.SetPaused?
  {
    var e := s.escrows[m.id];
    match m
    case TopUp(_, amount) => e.(amount := e.amount + amount)
    case Contribute(_, _, amount) => e.(amount := e.amount + amount)
    case Claim(id, who) => e.(amount := e.amount - s.contributions[(id, who)].amount)
    case Accept(_) => e.(acceptedAt := Some(s.now))
    case Rotate(_, releaser) => e.(releasers := [releaser])
    case Redirect(_, payee) => e.(payee := payee)
    case Settle(_, settled, _) => e.(status := settled)
  }

  predicate Names(m: Move, id: nat) { !m.Open? && !m.OpenPool? && !m.SetPaused? && m.id == id }

  /** A move rewrites at most the record it names; pools and the clock stay. */
  lemma MoveFrame(s: State, m: Move, id: nat)
    requires Fits(s, m) && id in s.escrows && s.nextId !in s.escrows
    ensures var t := Next(s, m);
            && t == After(s, m)
            && id in t.escrows && t.now == s.now
            && (id in t.pooled <==> id in s.pooled)
            && (id in s.pooled ==> t.pooled[id] == s.pooled[id])
            && t.escrows[id] == (if Names(m, id) then Rewritten(s, m) else s.escrows[id])
  {
    hide Transfer, Credit, PayOut, Balance, SettleEvents;
  }

  lemma MoveDescends(s: State, signers: set<Address>, m: Move, id: nat)
    requires Inv(s) && Permitted(s, signers, m) && id in s.escrows
    ensures Descends(s, Next(s, m), id)
  {
    hide Inv, Permitted, Next, After, Fits, AccountedRecord;
    FreshId(s);
    PermittedFits(s, signers, m);
    MoveFrame(s, m, id);
    if Names(m, id) {
      MoveAccountsRecord(s, signers, m);
    }
  }

  /** What a permitted move may do to the record it names, and on whose signatures. */
  lemma MoveAccountsRecord(s: State, signers: set<Address>, m: Move)
    requires Inv(s) && Permitted(s, signers, m) && !m.Open? && !m.OpenPool? && !m.SetPaused?
    ensures Fits(s, m) && SameTerms(s.escrows[m.id], Rewritten(s, m))
    ensures s.escrows[m.id].status == Funded
    ensures s.escrows[m.id].acceptedAt.Some? ==> Rewritten(s, m).acceptedAt == s.escrows[m.id].acceptedAt
    ensures m.id !in s.pooled ==> Rewritten(s, m).amount >= s.escrows[m.id].amount
    ensures AccountedRecord(s, m.id, Rewritten(s, m), signers)
  {
    hide Inv, WellFormed, QuorumSigned, Balance, GoodPool, GoodRecord;
    if m.Claim? { ClaimFacts(s, signers, m.id, m.who); }
  }

  lemma AtomDescends(s: State, a: Atom, id: nat)
    requires Inv(s) && Lawful(s, a) && id in s.escrows
    ensures Descends(s, Then(s, a), id)
  {
    hide Inv, Permitted, Next;
    if a.Act? { MoveDescends(s, a.signers, a.move, id); }
  }

  /**
   * Over any run an escrow keeps its payer, token, refund destination, quorum
   * size, deadlines and fee terms; once settled its record never changes again.
   */
  lemma RecordOverRuns(s: State, steps: seq<Step>, id: nat)
    requires Inv(s) && id in s.escrows
    ensures Descends(s, Run(s, steps), id)
  {
    hide Inv, Lawful, Then;
    ghost var P := (t: State) => Inv(t) && Descends(s, t, id);
    forall t, a | P(t) && Lawful(t, a) ensures P(Then(t, a)) {
      AtomKeepsInv(t, a);
      AtomDescends(t, a, id);
    }
    KeptOverRuns(s, steps, P);
  }

  /** What a settlement changes in storage: one record, nothing in the pools. */
  lemma SettleRewrites(t: State, signers: set<Address>, m: Move)
    requires Permitted(t, signers, m) && m.Settle?
    ensures m.id in t.escrows && m.settled != Funded
    ensures var u := Next(t, m);
            && u == After(t, m)
            && u.escrows == t.escrows[m.id := t.escrows[m.id].(status := m.settled)]
            && u.pooled == t.pooled && u.contributions == t.contributions && u.now == t.now
  {
    hide QuorumSigned, PayOut, Credit, SettleEvents;
  }

  /** What a claim changes in storage: the pool's total and one contributor's mark. */
  lemma ClaimRewrites(t: State, signers: set<Address>, id: nat, who: Address)
    requires MayClaim(t, id, who, signers)
    ensures var u, e, c, k := Next(t, Claim(id, who)), t.escrows[id], t.contributions[(id, who)], (id, who);
            && u == After(t, Claim(id, who))
            && u.escrows == t.escrows[id := e.(amount := e.amount - c.amount)]
            && u.contributions == t.contributions[k := c.(refunded := true)]
            && u.pooled == t.pooled && u.now == t.now
  {
    hide Credit, Transfer;
  }

  // ---- who must have signed ----------------------------------------------

  /** Batches settle other escrows first; none of that touches the record of `id`. */
  lemma {:induction false} BatchAuthority(s: State, signers: set<Address>, moves: seq<Move>, id: nat)
    requires Inv(s) && PermittedAll(s, signers, moves) && id in s.escrows
    requires (forall m :: m in moves ==> m.Open?) || (forall m :: m in moves ==> m.Settle?)
    ensures var t := AfterAll(s, moves);
            && Inv(t) && id in t.escrows && t.now == s.now && t.pooled == s.pooled
            && (t.escrows[id] == s.escrows[id]
                || (t.escrows[id].status != Funded
                    && MaySettle(s, id, t.escrows[id].status, signers)
                    && t.escrows[id] == s.escrows[id].(status := t.escrows[id].status)))
  {
    hide Inv, Permitted, Next, QuorumSigned;
    if moves != [] {
      var n := |moves| - 1;
      assert forall m :: m in moves[..n] ==> m in moves;
      BatchAuthority(s, signers, moves[..n], id);
      var t, m := AfterAll(s, moves[..n]), moves[n];
      BatchMove(t, signers, m, id);
      assert AfterAll(s, moves) == Next(t, m);
    }
  }

  lemma BatchMove(t: State, signers: set<Address>, m: Move, id: nat)
    requires Inv(t) && Permitted(t, signers, m) && id in t.escrows && (m.Open? || m.Settle?)
    ensures var u := Next(t, m);
            && Inv(u)
            && id in u.escrows && u.now == t.now && u.pooled == t.pooled
            && (u.escrows[id] == t.escrows[id]
                || (m.Settle? && m.id == id && MaySettle(t, id, m.settled, signers)
                    && u.escrows[id] == t.escrows[id].(status := m.settled)))
  {
    hide Inv, MaySettle, MayOpen, Transfer, Credit, PayOut;
    FreshId(t);
    MoveKeepsInv(t, signers, m);
    MoveFrame(t, m, id);
  }

  lemma MoveAccounted(s: State, signers: set<Address>, m: Move, id: nat)
    requires Inv(s) && Permitted(s, signers, m) && id in s.escrows
    ensures id in Next(s, m).escrows && AccountedRecord(s, id, Next(s, m).escrows[id], signers)
  {
    hide Inv, Permitted, Next, After, MaySettle;
    FreshId(s);
    PermittedFits(s, signers, m);
    MoveFrame(s, m, id);
    if Names(m, id) {
      MoveAccountsRecord(s, signers, m);
    }
  }

  /**
   * Authority, step by step: a release needed a quorum of stored releasers and
   * every gate; a refund the payee, a quorum or the deadline; a cancel the payer
   * before acceptance; and each party's right moved only on that party's signature.
   * Without an invocation nothing in the record changes.
   */
  lemma StepAuthority(s: State, step: Step, id: nat)
    requires Inv(s) && id in s.escrows
    ensures var t := Take(s, step);
            && id in t.escrows
            && (t.escrows[id] != s.escrows[id] ==> step.Invoke? && AccountedRecord(s, id, t.escrows[id], step.signers))
  {
    hide Inv, Permitted, Exec, Next, AccountedRecord, OutsideActivity;
    if step.Invoke? {
      var r := Exec(s, step.signers, step.op, step.faults);
      ExecPermits(s, step.signers, step.op, step.faults);
      if r.Ok? {
        if |r.value| == 1 {
          assert r.value == [] + [r.value[0]];
          AfterMore(s, [], r.value[0]);
          MoveAccounted(s, step.signers, r.value[0], id);
        } else {
          BatchAuthority(s, step.signers, r.value, id);
          SettledOnly(s, AfterAll(s, r.value), id, step.signers);
        }
      }
    }
  }

  lemma SettledOnly(s: State, t: State, id: nat, signers: set<Address>)
    requires id in s.escrows && id in t.escrows
    requires t.escrows[id] == s.escrows[id]
             || (MaySettle(s, id, t.escrows[id].status, signers)
                 && t.escrows[id] == s.escrows[id].(status := t.escrows[id].status))
    ensures AccountedRecord(s, id, t.escrows[id], signers)
  {
  }

  // ---- what the events add up to -----------------------------------------

  ghost function Tally(log: seq<Event>, f: Event -> int): int {
    if log == [] then 0 else Tally(log[..|log| - 1], f) + f(log[|log| - 1])
  }

  lemma TallyMore(log: seq<Event>, more: seq<Event>, f: Event -> int)
    requires |more| <= 2
    ensures Tally(log + more, f)
         == Tally(log, f) + (if |more| > 0 then f(more[0]) else 0) + (if |more| > 1 then f(more[1]) else 0)
  {
    if |more| == 0 {
      assert log + more == log;
    } else {
      assert (log + more)[..|log + more| - 1] == log + more[..|more| - 1];
      if |more| == 1 {
        assert log + more[..0] == log;
      } else {
        assert (log + more[..1])[..|log|] == log;
      }
    }
  }

  ghost function CreatedTerm(id: nat): Event -> int {
    (ev: Event) => if ev.Lifecycle? && ev.id == id && ev.action == ActCreated then 1 else 0
  }
  ghost function SettledTerm(id: nat): Event -> int {
    (ev: Event) => if ev.Lifecycle? && ev.id == id && ev.action != ActCreated then 1 else 0
  }
  ghost function ReleasedTerm(id: nat): Event -> int {
    (ev: Event) => if ev.Lifecycle? && ev.id == id && ev.action == ActReleased then 1 else 0
  }
  /** What entered escrow `id`: its opening amount, its top-ups, its contributions. */
  ghost function PaidInTerm(id: nat): Event -> int {
    (ev: Event) =>
      match ev
      case Lifecycle(action, i, data) => if i == id && action == ActCreated then data.amount else 0
      case ToppedUpEvent(i, amount, _) => if i == id then amount else 0
      case ContributedEvent(i, _, amount, _) => if i == id then amount else 0
      case _ => 0
  }
  /** What left escrow `id`: its one settlement, or its contributors' claims. */
  ghost function PaidOutTerm(id: nat): Event -> int {
    (ev: Event) =>
      match ev
      case Lifecycle(action, i, data) => if i == id && action != ActCreated then data.amount else 0
      case ClaimedEvent(i, _, amount) => if i == id then amount else 0
      case _ => 0
  }
  ghost function GivenTerm(id: nat, who: Address): Event -> int {
    (ev: Event) => if ev.ContributedEvent? && ev.id == id && ev.who == who then ev.amount else 0
  }
  ghost function TakenBackTerm(id: nat, who: Address): Event -> int {
    (ev: Event) => if ev.ClaimedEvent? && ev.id == id && ev.who == who then ev.amount else 0
  }
  ghost function ClaimsTerm(id: nat, who: Address): Event -> int {
    (ev: Event) => if ev.ClaimedEvent? && ev.id == id && ev.who == who then 1 else 0
  }

  ghost predicate IsSettled(s: State, id: nat) { id in s.escrows && s.escrows[id].status != Funded }

  ghost function Held(s: State, id: nat): int {
    if id in s.escrows && s.escrows[id].status == Funded then s.escrows[id].amount else 0
  }

  /** Creation, settlement and release are each published once, when they happen. */
  ghost predicate Announced(s: State, id: nat) {
    && Tally(s.events, CreatedTerm(id)) == (if id in s.escrows then 1 else 0)
    && Tally(s.events, SettledTerm(id)) == (if IsSettled(s, id) then 1 else 0)
    && Tally(s.events, ReleasedTerm(id)) == (if id in s.escrows && s.escrows[id].status == Released then 1 else 0)
  }

  /** Everything paid into escrow `id` is still held for it or has left it, exactly once. */
  ghost predicate Conserved(s: State, id: nat) {
    Tally(s.events, PaidInTerm(id)) == Tally(s.events, PaidOutTerm(id)) + Held(s, id)
  }

  /** A contributor's record is the sum of what was given; a claim takes back all of it, once. */
  ghost predicate Remembered(s: State, id: nat, who: Address) {
    var c := RecordOf(s, id, who);
    && Tally(s.events, GivenTerm(id, who)) == c.amount
    && Tally(s.events, TakenBackTerm(id, who)) == (if c.refunded then c.amount else 0)
    && Tally(s.events, ClaimsTerm(id, who)) == (if c.refunded then 1 else 0)
  }

  function NewEvents(s: State, m: Move): seq<Event>
    requires Fits(s, m)
  {
    match m
    case Open(e) => [Lifecycle(ActCreated, s.nextId, e)]
    case OpenPool(e, _) => [Lifecycle(ActCreated, s.nextId, e)]
    case TopUp(id, amount) => [ToppedUpEvent(id, amount, s.escrows[id].amount + amount)]
    case Contribute(id, who, amount) => [ContributedEvent(id, who, amount, s.escrows[id].amount + amount)]
    case Claim(id, who) => [ClaimedEvent(id, who, s.contributions[(id, who)].amount)]
    case Accept(id) => [AcceptedEvent(id, s.escrows[id].payee, s.now)]
    case Rotate(id, releaser) => [RotatedEvent(id, s.escrows[id].releasers[0], releaser)]
    case Redirect(id, payee) => [PayeeMovedEvent(id, s.escrows[id].payee, payee)]
    case Settle(id, settled, byPayee) => SettleEvents(id, s.escrows[id], settled, byPayee)
    case SetPaused(flag) => [if flag then PausedEvent(s.pauseAdmin) else UnpausedEvent(s.pauseAdmin)]
  }

  lemma EventsGrow(s: State, m: Move)
    requires Fits(s, m)
    ensures Next(s, m).events == s.events + NewEvents(s, m)
    ensures 1 <= |NewEvents(s, m)| <= 2
  {
    hide Transfer, Credit, PayOut;
  }

  /** The record of `id` after a move, whether it existed before or not. */
  lemma RecordFrame(s: State, m: Move, id: nat, who: Address)
    requires Fits(s, m) && s.nextId !in s.escrows
    ensures var t, created := Next(s, m), (m.Open? || m.OpenPool?) && id == s.nextId;
            && (id in t.escrows <==> id in s.escrows || created)
            && (created ==> t.escrows[id] == m.data)
            && (id in s.escrows ==> t.escrows[id] == if Names(m, id) then Rewritten(s, m) else s.escrows[id])
            && RecordOf(t, id, who)
               == var c := RecordOf(s, id, who);
                  if m == Contribute(id, who, if m.Contribute? then m.amount else 0) then c.(amount := c.amount + m.amount)
                  else if m == Claim(id, who) then c.(refunded := true)
                  else c
  {
    hide After, RecordOf, Rewritten, Fits;
    EscrowFrame(s, m, id);
    ContributionFrame(s, m, id, who);
  }

  lemma EscrowFrame(s: State, m: Move, id: nat)
    requires Fits(s, m) && s.nextId !in s.escrows
    ensures var t, created := Next(s, m), (m.Open? || m.OpenPool?) && id == s.nextId;
            && (id in t.escrows <==> id in s.escrows || created)
            && (created ==> t.escrows[id] == m.data)
            && (id in s.escrows ==> t.escrows[id] == if Names(m, id) then Rewritten(s, m) else s.escrows[id])
  {
    hide Transfer, Credit, PayOut, Balance, SettleEvents;
  }

  lemma ContributionFrame(s: State, m: Move, id: nat, who: Address)
    requires Fits(s, m)
    ensures RecordOf(Next(s, m), id, who)
            == var c := RecordOf(s, id, who);
               if m == Contribute(id, who, if m.Contribute? then m.amount else 0) then c.(amount := c.amount + m.amount)
               else if m == Claim(id, who) then c.(refunded := true)
               else c
  {
    hide Transfer, Credit, PayOut, Balance, SettleEvents;
  }

  lemma SettleEventsTally(id: nat, e: Escrow, settled: Status, byPayee: bool, j: nat, who: Address)
    requires settled != Funded
    ensures var more := SettleEvents(id, e, settled, byPayee);
            && 1 <= |more| <= 2
            && Both(more, CreatedTerm(j)) == 0
            && Both(more, SettledTerm(j)) == (if id == j then 1 else 0)
            && Both(more, ReleasedTerm(j)) == (if id == j && settled == Released then 1 else 0)
            && Both(more, PaidInTerm(j)) == 0
            && Both(more, PaidOutTerm(j)) == (if id == j then e.amount else 0)
            && Both(more, GivenTerm(j, who)) == Both(more, TakenBackTerm(j, who)) == Both(more, ClaimsTerm(j, who)) == 0
  {
  }

  ghost function Both(more: seq<Event>, f: Event -> int): int {
    (if |more| > 0 then f(more[0]) else 0) + (if |more| > 1 then f(more[1]) else 0)
  }

  lemma MoveFacts(s: State, signers: set<Address>, m: Move)
    requires Inv(s) && Permitted(s, signers, m)
    ensures Fits(s, m) && s.nextId !in s.escrows
    ensures m.Open? || m.OpenPool? ==> m.data.status == Funded
    ensures m.OpenPool? ==> m.data.amount == 0
    ensures !m.Open? && !m.OpenPool? && !m.SetPaused? ==> s.escrows[m.id].status == Funded
    ensures m.Contribute? ==> !RecordOf(s, m.id, m.who).refunded
    ensures m.Claim? ==> !s.contributions[(m.id, m.who)].refunded
  {
    hide Inv, WellFormed, QuorumSigned, Balance;
    FreshId(s);
    if m.Contribute? { ContributePledges(s, m.id, m.who, m.amount); }
  }

  /** A move announces a creation or a settlement exactly when it makes one. */
  lemma NewEventTerms(s: State, m: Move, id: nat)
    requires Fits(s, m)
    ensures var more := NewEvents(s, m);
            && Both(more, CreatedTerm(id)) == (if (m.Open? || m.OpenPool?) && id == s.nextId then 1 else 0)
            && Both(more, SettledTerm(id)) == (if m.Settle? && id == m.id then 1 else 0)
            && Both(more, ReleasedTerm(id)) == (if m.Settle? && id == m.id && m.settled == Released then 1 else 0)
  {
    hide SettleEvents;
    if m.Settle? { SettleEventsTally(m.id, s.escrows[m.id], m.settled, m.byPayee, id, Contract); }
  }

  lemma MoveKeepsAnnounced(s: State, signers: set<Address>, m: Move, id: nat)
    requires Inv(s) && Permitted(s, signers, m) && Announced(s, id)
    ensures Announced(Next(s, m), id)
  {
    hide Inv, Permitted, Next, NewEvents, RecordOf, Tally, CreatedTerm, SettledTerm, ReleasedTerm;
    MoveFacts(s, signers, m);
    EventsGrow(s, m);
    RecordFrame(s, m, id, Contract);
    NewEventTerms(s, m, id);
    var more := NewEvents(s, m);
    TallyMore(s.events, more, CreatedTerm(id));
    TallyMore(s.events, more, SettledTerm(id));
    TallyMore(s.events, more, ReleasedTerm(id));
  }

  /** What a move announces as paid in and as paid out. */
  lemma NewMoneyTerms(s: State, m: Move, id: nat)
    requires Fits(s, m)
    ensures Both(NewEvents(s, m), PaidInTerm(id))
            == if (m.Open? || m.OpenPool?) && id == s.nextId then m.data.amount
               else if (m.TopUp? || m.Contribute?) && id == m.id then m.amount
               else 0
    ensures Both(NewEvents(s, m), PaidOutTerm(id))
            == if m.Settle? && id == m.id then s.escrows[id].amount
               else if m.Claim? && id == m.id then s.contributions[(id, m.who)].amount
               else 0
  {
    hide SettleEvents;
    if m.Settle? { SettleEventsTally(m.id, s.escrows[m.id], m.settled, m.byPayee, id, Contract); }
  }

  /** What a move announces as given and as taken back by one contributor. */
  lemma NewContributorTerms(s: State, m: Move, id: nat, who: Address)
    requires Fits(s, m)
    ensures var more := NewEvents(s, m);
            && Both(more, GivenTerm(id, who)) == (if m.Contribute? && id == m.id && who == m.who then m.amount else 0)
            && Both(more, TakenBackTerm(id, who)) == (if m == Claim(id, who) then s.contributions[(id, who)].amount else 0)
            && Both(more, ClaimsTerm(id, who)) == (if m == Claim(id, who) then 1 else 0)
  {
    hide SettleEvents;
    if m.Settle? { SettleEventsTally(m.id, s.escrows[m.id], m.settled, m.byPayee, id, who); }
  }

  lemma MoveKeepsConserved(s: State, signers: set<Address>, m: Move, id: nat)
    requires Inv(s) && Permitted(s, signers, m) && Conserved(s, id)
    ensures Conserved(Next(s, m), id)
  {
    hide Inv, Permitted, Next, NewEvents, RecordOf, Tally, PaidInTerm, PaidOutTerm;
    MoveFacts(s, signers, m);
    EventsGrow(s, m);
    RecordFrame(s, m, id, Contract);
    NewMoneyTerms(s, m, id);
    TallyMore(s.events, NewEvents(s, m), PaidInTerm(id));
    TallyMore(s.events, NewEvents(s, m), PaidOutTerm(id));
  }

  lemma MoveKeepsRemembered(s: State, signers: set<Address>, m: Move, id: nat, who: Address)
    requires Inv(s) && Permitted(s, signers, m) && Remembered(s, id, who)
    ensures Remembered(Next(s, m), id, who)
  {
    hide Inv, Permitted, Next, NewEvents, RecordOf, Tally, GivenTerm, TakenBackTerm, ClaimsTerm;
    MoveFacts(s, signers, m);
    EventsGrow(s, m);
    RecordFrame(s, m, id, who);
    NewContributorTerms(s, m, id, who);
    if m.Claim? { RecordPresent(s, m.id, m.who); }
    TallyMore(s.events, NewEvents(s, m), GivenTerm(id, who));
    TallyMore(s.events, NewEvents(s, m), TakenBackTerm(id, who));
    TallyMore(s.events, NewEvents(s, m), ClaimsTerm(id, who));
  }

  lemma RecordPresent(s: State, id: nat, who: Address)
    requires (id, who) in s.contributions
    ensures RecordOf(s, id, who) == s.contributions[(id, who)]
  {
  }

  ghost predicate Ledgered(s: State, id: nat, who: Address) {
    Announced(s, id) && Conserved(s, id) && Remembered(s, id, who)
  }

  lemma AtomKeepsLedgered(s: State, a: Atom, id: nat, who: Address)
    requires Inv(s) && Lawful(s, a) && Ledgered(s, id, who)
    ensures Ledgered(Then(s, a), id, who)
  {
    hide Inv, Permitted, Next, Tally;
    if a.Act? {
      MoveKeepsAnnounced(s, a.signers, a.move, id);
      MoveKeepsConserved(s, a.signers, a.move, id);
      MoveKeepsRemembered(s, a.signers, a.move, id, who);
    }
  }

  /** In every reachable state the published events account for every escrow and contributor. */
  lemma LedgeredOverRuns(s: State, steps: seq<Step>, id: nat, who: Address)
    requires Deployed(s)
    ensures Inv(Run(s, steps)) && Ledgered(Run(s, steps), id, who)
  {
    DeployedInv(s);
    assert Ledgered(s, id, who);
    hide Inv, Lawful, Then, Ledgered, Deployed;
    ghost var P := (t: State) => Inv(t) && Ledgered(t, id, who);
    forall t, a | P(t) && Lawful(t, a) ensures P(Then(t, a)) {
      AtomKeepsInv(t, a);
      AtomKeepsLedgered(t, a, id, who);
    }
    KeptOverRuns(s, steps, P);
  }

  /**
   * Single payout: in every reachable state escrow `id` has been settled at most
   * once, and what left it plus what is still held is what came in.
   */
  lemma SinglePayout(s: State, steps: seq<Step>, id: nat)
    requires Deployed(s)
    ensures var t := Run(s, steps);
            && Tally(t.events, SettledTerm(id)) <= 1
            && (Tally(t.events, SettledTerm(id)) == 1 <==> IsSettled(t, id))
            && Tally(t.events, PaidInTerm(id)) == Tally(t.events, PaidOutTerm(id)) + Held(t, id)
  {
    LedgeredOverRuns(s, steps, id, Contract);
  }

  // ---- a pool's outcome is decided once ----------------------------------

  /** No run holds both a claim and a release of the same pool. */
  lemma ClaimOrRelease(s: State, steps: seq<Step>, id: nat, who: Address)
    requires Deployed(s)
    ensures var t := Run(s, steps);
            Tally(t.events, ClaimsTerm(id, who)) == 0 || Tally(t.events, ReleasedTerm(id)) == 0
  {
    LedgeredOverRuns(s, steps, id, who);
    var t := Run(s, steps);
    if RecordOf(t, id, who).refunded {
      ContributionFacts(t, (id, who));
    }
  }

  ghost predicate RoundFailed(s: State, id: nat) {
    && id in s.escrows && id in s.pooled && s.escrows[id].status == Funded
    && s.now >= s.pooled[id].deadline && s.escrows[id].amount < s.pooled[id].target
  }

  ghost predicate RoundSucceeded(s: State, id: nat) {
    id in s.escrows && id in s.pooled && s.escrows[id].amount == s.pooled[id].target
  }

  lemma MoveKeepsRound(s: State, signers: set<Address>, m: Move, id: nat)
    requires Inv(s) && Permitted(s, signers, m)
    ensures RoundFailed(s, id) ==> RoundFailed(Next(s, m), id)
    ensures RoundSucceeded(s, id) ==> RoundSucceeded(Next(s, m), id)
  {
    hide Inv, Permitted, Next, After, Fits, MaySettle;
    if id in s.escrows && id in s.pooled {
      FreshId(s);
      PermittedFits(s, signers, m);
      MoveFrame(s, m, id);
      MoveAccounted(s, signers, m, id);
      if RoundFailed(s, id) && Names(m, id) { PoolStays(s, signers, m, id); }
    }
  }

  /** While a pool is below target no move settles it. */
  lemma PoolStays(s: State, signers: set<Address>, m: Move, id: nat)
    requires Inv(s) && Permitted(s, signers, m) && RoundFailed(s, id) && Names(m, id)
    ensures !m.Settle?
  {
    hide Inv, QuorumSigned;
  }

  lemma RoundOverRuns(s: State, steps: seq<Step>, id: nat)
    requires Inv(s)
    ensures RoundFailed(s, id) ==> RoundFailed(Run(s, steps), id)
    ensures RoundSucceeded(s, id) ==> RoundSucceeded(Run(s, steps), id)
  {
    ghost var P := (t: State) => Inv(t) && (RoundFailed(s, id) ==> RoundFailed(t, id)) && (RoundSucceeded(s, id) ==> RoundSucceeded(t, id));
    hide Inv, Permitted, Next;
    forall t, a | P(t) && Lawful(t, a) ensures P(Then(t, a)) {
      AtomKeepsInv(t, a);
      if a.Act? { MoveKeepsRound(t, a.signers, a.move, id); }
    }
    hide Lawful, Then, RoundFailed, RoundSucceeded;
    KeptOverRuns(s, steps, P);
  }

  /**
   * Pooled accounting in every reachable state: a funded pool holds exactly its
   * unclaimed contributions, at most its target, and a claim is on record only
   * in a round that missed its deadline.
   */
  lemma PooledAccounting(s: State, steps: seq<Step>, id: nat)
    requires Deployed(s)
    ensures var t := Run(s, steps);
            id in t.pooled ==>
              && id in t.escrows
              && (t.escrows[id].status == Funded ==>
                    t.escrows[id].amount == Pledged(t.contributions, id) <= t.pooled[id].target)
              && forall who :: (id, who) in t.contributions && t.contributions[(id, who)].refunded ==> RoundFailed(t, id)
  {
    hide Deployed, Run, Pledged;
    DeployedInv(s);
    InvOverRuns(s, steps);
    var t := Run(s, steps);
    if id in t.pooled {
      PoolHasRecord(t, id);
      RecordFacts(t, id);
      forall who | (id, who) in t.contributions && t.contributions[(id, who)].refunded ensures RoundFailed(t, id) {
        ContributionFacts(t, (id, who));
      }
    }
    hide Inv, GoodRecord, RoundFailed;
  }

  lemma PoolHasRecord(s: State, id: nat)
    requires Inv(s) && id in s.pooled
    ensures id in s.escrows
  {
  }

  /** Whoever has claimed from a pool can never contribute to it again. */
  lemma RefundedNeverContributes(s: State, more: seq<Step>, id: nat, who: Address, signers: set<Address>, amount: I128, f: Faults)
    requires Inv(s) && (id, who) in s.contributions && s.contributions[(id, who)].refunded
    ensures !ContributeRule(Run(s, more), signers, id, who, amount, f).Ok?
  {
    hide Inv, Run, TransferIn;
    ContributionFacts(s, (id, who));
    RoundOverRuns(s, more, id);
  }

  lemma FailedRoundUnreleasable(t: State, id: nat, signers: set<Address>, caller: Address, approvers: seq<Address>, f: Faults)
    requires RoundFailed(t, id)
    ensures !ReleaseRule(t, signers, id, caller, f).Ok?
    ensures !ReleaseWithApprovalsRule(t, signers, id, approvers, f).Ok?
    ensures !SettleOneRule(t, id, caller, DoRelease, f).Ok?
  {
    hide SettleRule, CheckApprovals, CheckSingleCaller;
  }

  /**
   * A pool below target at its deadline can never be released afterwards, by
   * anybody; a pool that reached its target can never be claimed from.
   */
  lemma PoolDecided(s: State, steps: seq<Step>, id: nat, signers: set<Address>, caller: Address, approvers: seq<Address>, f: Faults)
    requires Inv(s)
    ensures var t := Run(s, steps);
            && (RoundFailed(s, id) ==>
                  && !ReleaseRule(t, signers, id, caller, f).Ok?
                  && !ReleaseWithApprovalsRule(t, signers, id, approvers, f).Ok?
                  && !SettleOneRule(t, id, caller, DoRelease, f).Ok?)
            && (RoundSucceeded(s, id) ==> !ClaimRule(t, signers, id, caller, f).Ok?)
  {
    hide Inv, Run, ReleaseRule, ReleaseWithApprovalsRule, SettleOneRule;
    RoundOverRuns(s, steps, id);
    var t := Run(s, steps);
    if RoundFailed(t, id) { FailedRoundUnreleasable(t, id, signers, caller, approvers, f); }
  }
}
