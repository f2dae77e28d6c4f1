// The event indexer: a fold of the contract's event stream into records that
// agree with contract storage.
module Indexer {
  import opened Prelude
  import opened EscrowTypes
  import opened EscrowRules
  import opened EscrowMoves
  import opened EscrowSafety
  import opened EscrowRuns
  import opened EscrowTraces
  import opened EscrowHistory

  /** Decoded event values. Addresses render to distinct strings, so they stand for themselves. */
  datatype Native = Text(text: string) | Num(num: int) | Flag(flag: bool) | List(items: seq<Native>) | Addr(address: Address) | Null

  datatype RawEvent = RawEvent(isContract: bool, hasContractId: bool, topics: seq<Native>, value: Native, meta: Meta)

  datatype Meta = Meta(ledger: nat, txHash: string, eventId: string)

  datatype Indexed = Indexed(
    escrowId: int,
    payer: Native,
    payee: Native,
    token: Native,
    amount: int,
    conditionRef: string,
    releasers: seq<Native>,
    threshold: int,
    refundAfter: Option<int>,
    notifyPayee: bool,
    requiresAcceptance: bool,
    acceptedAt: Option<int>,
    feeRecipient: Option<Native>,
    feeBps: Option<int>,
    status: string,
    updatedLedger: nat)

  datatype HistoryRow = HistoryRow(escrowId: int, action: string, txHash: string, ledger: nat)

  datatype Db = Db(records: map<int, Indexed>, history: map<(string, string), HistoryRow>)

  const ACTIONS: set<string> := {"created", "released", "refunded", "cancelled"}

  // ---- what the contract publishes ---------------------------------------

  function ActionText(a: Action): string {
    match a
    case ActCreated => "created"
    case ActReleased => "released"
    case ActRefunded => "refunded"
    case ActCancelled => "cancelled"
  }

  function StatusText(s: Status): string {
    match s
    case Funded => "Funded"
    case Released => "Released"
    case Refunded => "Refunded"
    case Cancelled => "Cancelled"
  }

  function OptionalNum(o: Option<nat>): Native { if o.Some? then Num(o.value) else Null }

  function OptionalAddr(o: Option<Address>): Native { if o.Some? then Addr(o.value) else Null }

  /** `publish_state`: thirteen fields, the fee as one nested pair. */
  function Snapshot(e: Escrow): Native {
    List([Addr(e.payer), Addr(e.payee), Addr(e.token), Num(e.amount), Text(e.conditionRef),
          List(seq(|e.releasers|, i requires 0 <= i < |e.releasers| => Addr(e.releasers[i]))),
          Num(e.threshold), OptionalNum(e.refundAfter), Flag(e.notifyPayee), Flag(e.requiresAcceptance),
          OptionalNum(e.acceptedAt), Text(StatusText(e.status)),
          List([OptionalAddr(e.feeRecipient), OptionalNum(e.feeBps)])])
  }

  /** Topics and payload of every event the contract emits. */
  function Encode(ev: Event, meta: Meta): RawEvent {
    match ev
    case Lifecycle(action, id, data) =>
      RawEvent(true, true, [Text("ESCROW"), Text(ActionText(action)), Num(id)], Snapshot(data), meta)
    case AcceptedEvent(id, payee, at) =>
      RawEvent(true, true, [Text("accepted"), Num(id)], List([Addr(payee), Num(at)]), meta)
    case ContributedEvent(id, who, amount, funded) =>
      RawEvent(true, true, [Text("contrib"), Num(id)], List([Addr(who), Num(amount), Num(funded)]), meta)
    case ClaimedEvent(id, who, amount) =>
      RawEvent(true, true, [Text("claimed"), Num(id)], List([Addr(who), Num(amount)]), meta)
    case RotatedEvent(id, previous, next) =>
      RawEvent(true, true, [Text("rotate"), Num(id)], List([Addr(previous), Addr(next)]), meta)
    case ToppedUpEvent(id, amount, updated) =>
      RawEvent(true, true, [Text("top_up"), Num(id)], List([Num(amount), Num(updated)]), meta)
    case PayeeMovedEvent(id, previous, next) =>
      RawEvent(true, true, [Text("pay_xfer"), Num(id)], List([Addr(previous), Addr(next)]), meta)
    case PayeeRefundedEvent(id, payer, payee, amount) =>
      RawEvent(true, true, [Text("payee_refunded"), Num(id), Addr(payer), Addr(payee)], List([Num(amount)]), meta)
    case PausedEvent(admin) => RawEvent(true, true, [Text("paused"), Addr(admin)], Null, meta)
    case UnpausedEvent(admin) => RawEvent(true, true, [Text("unpaused"), Addr(admin)], Null, meta)
  }

  // ---- the handler -------------------------------------------------------

  /** `BigInt(String(v))` on a value that is not a number throws. */
  function AsNum(v: Native): Option<int> { if v.Num? then Some(v.num) else None }

  /** A missing optional number stays missing; a present one must convert. */
  predicate Convertible(v: Native) { v.Null? || v.Num? }

  /** The handler looks at this event at all. */
  predicate Relevant(ev: RawEvent) {
    && ev.isContract && ev.hasContractId && |ev.topics| >= 3
    && ev.topics[0] == Text("ESCROW")
    && ev.topics[1].Text? && ev.topics[1].text in ACTIONS
    && ev.value.List? && (|ev.value.items| == 12 || |ev.value.items| == 13)
    && var f := ev.value.items;
    && f[4].Text? && f[11].Text? && f[8].Flag? && f[9].Flag? && f[5].List?
  }

  function FeePart(f: seq<Native>, i: nat): Native {
    if |f| == 13 && f[12].List? && i < |f[12].items| then f[12].items[i] else Null
  }

  /** Every conversion succeeds; otherwise the handler throws and saves nothing. */
  predicate Converts(ev: RawEvent)
    requires Relevant(ev)
  {
    var f := ev.value.items;
    && ev.topics[2].Num? && f[3].Num? && f[6].Num?
    && Convertible(f[7]) && Convertible(f[10]) && Convertible(FeePart(f, 1))
  }

  function RecordFrom(ev: RawEvent): Indexed
    requires Relevant(ev) && Converts(ev)
  {
    var f := ev.value.items;
    Indexed(ev.topics[2].num, f[0], f[1], f[2], f[3].num, f[4].text, f[5].items, f[6].num, AsNum(f[7]),
            f[8].flag, f[9].flag, AsNum(f[10]),
            if FeePart(f, 0).Null? then None else Some(FeePart(f, 0)), AsNum(FeePart(f, 1)),
            f[11].text, ev.meta.ledger)
  }

  /** One handled event. */
  function Apply(db: Db, ev: RawEvent): Db {
    if Relevant(ev) && Converts(ev) then
      var id := ev.topics[2].num;
      Db(db.records[id := RecordFrom(ev)],
         db.history[(ev.meta.txHash, ev.meta.eventId) := HistoryRow(id, ev.topics[1].text, ev.meta.txHash, ev.meta.ledger)])
    else db
  }

  class Store {
    var records: map<int, Indexed>
    var history: map<(string, string), HistoryRow>

    function Contents(): Db
      reads this
    {
      Db(records, history)
    }

    constructor ()
      ensures Contents() == Db(map[], map[])
    {
      records, history := map[], map[];
    }

    /** `handleEscrowEvent`: ignores unrelated events, else overwrites the record field by field and adds a row. */
    method Handle(ev: RawEvent) returns (threw: bool)
      modifies this
      ensures Contents() == Apply(old(Contents()), ev)
      ensures threw <==> Relevant(ev) && !Converts(ev)
    {
      if !ev.isContract || !ev.hasContractId || |ev.topics| < 3 { return false; }
      var namespace, action, rawId := ev.topics[0], ev.topics[1], ev.topics[2];
      if namespace != Text("ESCROW") || !action.Text? || action.text !in ACTIONS { return false; }
      if !ev.value.List? { return false; }
      var raw := ev.value.items;
      if |raw| != 12 && |raw| != 13 { return false; }
      if !raw[4].Text? || !raw[11].Text? || !raw[8].Flag? || !raw[9].Flag? || !raw[5].List? { return false; }
      var feeRecipient, rawFeeBps := Null, Null;
      if |raw| == 13 && raw[12].List? {
        var pair := raw[12].items;
        feeRecipient := if |pair| > 0 then pair[0] else Null;
        rawFeeBps := if |pair| > 1 then pair[1] else Null;
      }
      if !rawId.Num? || !raw[3].Num? || !raw[6].Num? { return true; }
      if !Convertible(raw[7]) || !Convertible(raw[10]) || !Convertible(rawFeeBps) { return true; }
      var escrowId := rawId.num;
      var record := if escrowId in records then records[escrowId] else Blank(escrowId);
      record := record.(escrowId := escrowId, payer := raw[0], payee := raw[1], token := raw[2]);
      record := record.(amount := raw[3].num, conditionRef := raw[4].text, releasers := raw[5].items);
      record := record.(threshold := raw[6].num, refundAfter := AsNum(raw[7]), notifyPayee := raw[8].flag);
      record := record.(requiresAcceptance := raw[9].flag, acceptedAt := AsNum(raw[10]));
      record := record.(feeRecipient := if feeRecipient.Null? then None else Some(feeRecipient), feeBps := AsNum(rawFeeBps));
      record := record.(status := raw[11].text, updatedLedger := ev.meta.ledger);
      records := records[escrowId := record];
      history := history[(ev.meta.txHash, ev.meta.eventId) := HistoryRow(escrowId, action.text, ev.meta.txHash, ev.meta.ledger)];
      return false;
    }
  }

  function Blank(id: int): Indexed {
    Indexed(id, Null, Null, Null, 0, "", [], 0, None, false, false, None, None, None, "", 0)
  }

  /** How the handler reads a thirteen-field snapshot, the last field being the fee pair. */
  lemma HandlerReads(
      db: Db, id: int, action: string, payer: Native, payee: Native, token: Native, amount: int, conditionRef: string,
      releasers: seq<Native>, threshold: int, refundAfter: Option<int>, notifyPayee: bool, requiresAcceptance: bool,
      acceptedAt: Option<int>, status: string, feeRecipient: Native, feeBps: int, meta: Meta)
    requires action in {"created", "released", "refunded", "cancelled"} && feeRecipient != Null
    ensures
            var fields := [payer, payee, token, Num(amount), Text(conditionRef), List(releasers), Num(threshold),
                           if refundAfter.Some? then Num(refundAfter.value) else Null, Flag(notifyPayee), Flag(requiresAcceptance),
                           if acceptedAt.Some? then Num(acceptedAt.value) else Null, Text(status)];
            Apply(db, RawEvent(true, true, [Text("ESCROW"), Text(action), Num(id)], List(fields + [List([feeRecipient, Num(feeBps)])]), meta))
            == Db(db.records[id := Indexed(id, payer, payee, token, amount, conditionRef, releasers, threshold, refundAfter,
                                           notifyPayee, requiresAcceptance, acceptedAt, Some(feeRecipient), Some(feeBps), status, meta.ledger)],
                  db.history[(meta.txHash, meta.eventId) := HistoryRow(id, action, meta.txHash, meta.ledger)])
  {
  }

  /** An older snapshot of twelve fields reads as fee-free. */
  lemma HandlerReadsOlder(
      db: Db, id: int, action: string, payer: Native, payee: Native, token: Native, amount: int, conditionRef: string,
      releasers: seq<Native>, threshold: int, refundAfter: Option<int>, notifyPayee: bool, requiresAcceptance: bool,
      acceptedAt: Option<int>, status: string, meta: Meta)
    requires action in {"created", "released", "refunded", "cancelled"}
    ensures
            var fields := [payer, payee, token, Num(amount), Text(conditionRef), List(releasers), Num(threshold),
                           if refundAfter.Some? then Num(refundAfter.value) else Null, Flag(notifyPayee), Flag(requiresAcceptance),
                           if acceptedAt.Some? then Num(acceptedAt.value) else Null, Text(status)];
            Apply(db, RawEvent(true, true, [Text("ESCROW"), Text(action), Num(id)], List(fields), meta))
            == Db(db.records[id := Indexed(id, payer, payee, token, amount, conditionRef, releasers, threshold, refundAfter,
                                           notifyPayee, requiresAcceptance, acceptedAt, None, None, status, meta.ledger)],
                  db.history[(meta.txHash, meta.eventId) := HistoryRow(id, action, meta.txHash, meta.ledger)])
  {
  }

  // ---- replaying the stream ----------------------------------------------

  ghost function Replay(log: seq<Event>, metas: seq<Meta>): Db
    requires |metas| == |log|
  {
    if log == [] then Db(map[], map[])
    else
      var n := |log| - 1;
      Apply(Replay(log[..n], metas[..n]), Encode(log[n], metas[n]))
  }

  /** The last lifecycle snapshot published for `id`. */
  function LastSnapshot(log: seq<Event>, id: nat): Option<Escrow> {
    if log == [] then None
    else
      var ev := log[|log| - 1];
      if ev.Lifecycle? && ev.id == id then Some(ev.data) else LastSnapshot(log[..|log| - 1], id)
  }

  /** Where that snapshot was published. */
  function LastMeta(log: seq<Event>, metas: seq<Meta>, id: nat): Option<Meta>
    requires |metas| == |log|
  {
    if log == [] then None
    else
      var n := |log| - 1;
      if log[n].Lifecycle? && log[n].id == id then Some(metas[n]) else LastMeta(log[..n], metas[..n], id)
  }

  /** The indexed record carries every published field of `e`. */
  ghost predicate Shows(r: Indexed, id: nat, e: Escrow) {
    && r.escrowId == id
    && r.payer == Addr(e.payer) && r.payee == Addr(e.payee) && r.token == Addr(e.token)
    && r.amount == e.amount && r.conditionRef == e.conditionRef
    && |r.releasers| == |e.releasers| && (forall i :: 0 <= i < |e.releasers| ==> r.releasers[i] == Addr(e.releasers[i]))
    && r.threshold == e.threshold
    && (r.refundAfter.Some? <==> e.refundAfter.Some?) && (e.refundAfter.Some? ==> r.refundAfter.value == e.refundAfter.value)
    && r.notifyPayee == e.notifyPayee && r.requiresAcceptance == e.requiresAcceptance
    && (r.acceptedAt.Some? <==> e.acceptedAt.Some?) && (e.acceptedAt.Some? ==> r.acceptedAt.value == e.acceptedAt.value)
    && (r.feeRecipient.Some? <==> e.feeRecipient.Some?) && (e.feeRecipient.Some? ==> r.feeRecipient.value == Addr(e.feeRecipient.value))
    && (r.feeBps.Some? <==> e.feeBps.Some?) && (e.feeBps.Some? ==> r.feeBps.value == e.feeBps.value)
    && r.status == match e.status
                   case Funded => "Funded"
                   case Released => "Released"
                   case Refunded => "Refunded"
                   case Cancelled => "Cancelled"
  }

  /** The history row of a lifecycle event: its escrow, its action by name, its transaction and its ledger. */
  predicate RowOf(row: HistoryRow, id: nat, action: Action, meta: Meta) {
    && row.escrowId == id && row.txHash == meta.txHash && row.ledger == meta.ledger
    && row.action == match action
                     case ActCreated => "created"
                     case ActReleased => "released"
                     case ActRefunded => "refunded"
                     case ActCancelled => "cancelled"
  }

  /** A published snapshot decodes to a record that shows it; every other event is ignored. */
  lemma ApplyEncoded(db: Db, ev: Event, meta: Meta)
    ensures var after := Apply(db, Encode(ev, meta));
            if ev.Lifecycle? then
              && (exists r :: Shows(r, ev.id, ev.data) && r.updatedLedger == meta.ledger && after.records == db.records[ev.id as int := r])
              && after.history == db.history[Key(meta) := HistoryRow(ev.id, ActionText(ev.action), meta.txHash, meta.ledger)]
              && RowOf(after.history[Key(meta)], ev.id, ev.action, meta)
            else after == db
  {
    hide Encode, Shows, RecordFrom, Relevant, Converts, ActionText;
    if ev.Lifecycle? {
      SnapshotDecodes(ev, meta);
      ActionTexts(ev, meta);
    } else {
      OthersIgnored(ev, meta);
    }
  }

  lemma SnapshotDecodes(ev: Event, meta: Meta)
    requires ev.Lifecycle?
    ensures var raw := Encode(ev, meta);
            && Relevant(raw) && Converts(raw) && raw.topics[2] == Num(ev.id) && raw.topics[1] == Text(ActionText(ev.action))
            && raw.meta == meta
            && Shows(RecordFrom(raw), ev.id, ev.data) && RecordFrom(raw).updatedLedger == meta.ledger
  {
    assert ActionText(ev.action) in ACTIONS;
  }

  lemma ActionTexts(ev: Event, meta: Meta)
    requires ev.Lifecycle?
    ensures RowOf(HistoryRow(ev.id, ActionText(ev.action), meta.txHash, meta.ledger), ev.id, ev.action, meta)
  {
  }

  lemma OthersIgnored(ev: Event, meta: Meta)
    requires !ev.Lifecycle?
    ensures !Relevant(Encode(ev, meta))
  {
    assert "payee_refunded" != "ESCROW" by { assert |"payee_refunded"| != |"ESCROW"|; }
  }

  lemma {:induction false} ReplayShowsLast(log: seq<Event>, metas: seq<Meta>, id: nat)
    requires |metas| == |log|
    ensures var db, last := Replay(log, metas), LastSnapshot(log, id);
            && (id in db.records <==> last.Some?)
            && (last.Some? ==> Shows(db.records[id], id, last.value))
            && (last.Some? <==> LastMeta(log, metas, id).Some?)
            && (last.Some? ==> db.records[id].updatedLedger == LastMeta(log, metas, id).value.ledger)
  {
    hide Apply, Encode, Shows;
    if log != [] {
      var n := |log| - 1;
      ReplayShowsLast(log[..n], metas[..n], id);
      ApplyEncoded(Replay(log[..n], metas[..n]), log[n], metas[n]);
    }
  }

  /** The last snapshot has the stored status, and for a settled escrow it is the stored record. */
  ghost predicate Mirrored(s: State, id: nat) {
    var last := LastSnapshot(s.events, id);
    && (last.Some? <==> id in s.escrows)
    && (last.Some? ==>
          && last.value.status == s.escrows[id].status
          && (last.value.status != Funded ==> last.value == s.escrows[id]))
  }

  lemma LastSnapshotMore(log: seq<Event>, more: seq<Event>, id: nat)
    requires 1 <= |more| <= 2
    ensures LastSnapshot(log + more, id)
         == if LastSnapshot(more, id).Some? then LastSnapshot(more, id) else LastSnapshot(log, id)
  {
    assert (log + more)[..|log + more| - 1] == log + more[..|more| - 1];
    if |more| == 1 {
      assert log + more[..0] == log;
      assert LastSnapshot(more[..0], id) == None;
    } else {
      assert (log + more[..1])[..|log|] == log;
      assert more[..1][..0] == [];
      assert LastSnapshot(more[..1][..0], id) == None;
    }
  }

  lemma SettleSnapshot(id: nat, e: Escrow, settled: Status, byPayee: bool, j: nat)
    ensures var more := SettleEvents(id, e, settled, byPayee);
            1 <= |more| <= 2 && LastSnapshot(more, j) == if j == id then Some(e.(status := settled)) else None
  {
    var more := SettleEvents(id, e, settled, byPayee);
    assert LastSnapshot([], j) == None;
    if byPayee {
      assert more[..1][..0] == [];
    } else {
      assert more[..0] == [];
    }
  }

  lemma MoveKeepsMirrored(s: State, signers: set<Address>, m: Move, id: nat)
    requires Inv(s) && Permitted(s, signers, m) && Mirrored(s, id)
    ensures Mirrored(Next(s, m), id)
  {
    hide Inv, Permitted, Next, SettleEvents, RecordOf;
    MoveFacts(s, signers, m);
    EventsGrow(s, m);
    RecordFrame(s, m, id, Contract);
    if m.Settle? { SettleSnapshot(m.id, s.escrows[m.id], m.settled, m.byPayee, id); }
    var more := NewEvents(s, m);
    LastSnapshotMore(s.events, more, id);
    if !m.Settle? { assert more[..0] == []; assert LastSnapshot(more[..0], id) == None; }
  }

  lemma AtomKeepsMirrored(s: State, a: Atom, id: nat)
    requires Inv(s) && Lawful(s, a) && Mirrored(s, id)
    ensures Mirrored(Then(s, a), id)
  {
    hide Inv, Permitted, Next, LastSnapshot;
    if a.Act? { MoveKeepsMirrored(s, a.signers, a.move, id); }
  }

  lemma MirroredOverRuns(s: State, steps: seq<Step>, id: nat)
    requires Deployed(s)
    ensures Inv(Run(s, steps)) && Mirrored(Run(s, steps), id)
  {
    DeployedInv(s);
    assert Mirrored(s, id);
    hide Inv, Lawful, Then, Mirrored, Deployed;
    ghost var P := (t: State) => Inv(t) && Mirrored(t, id);
    forall t, a | P(t) && Lawful(t, a) ensures P(Then(t, a)) {
      AtomKeepsInv(t, a);
      AtomKeepsMirrored(t, a, id);
    }
    KeptOverRuns(s, steps, P);
  }

  // ---- history rows ------------------------------------------------------

  function Key(meta: Meta): (string, string) { (meta.txHash, meta.eventId) }

  ghost predicate DistinctMetas(metas: seq<Meta>) {
    forall i, j :: 0 <= i < j < |metas| ==> Key(metas[i]) != Key(metas[j])
  }

  ghost function Keys(metas: seq<Meta>): set<(string, string)> {
    set i | 0 <= i < |metas| :: Key(metas[i])
  }

  lemma LastKeyIsNew(metas: seq<Meta>)
    requires metas != [] && DistinctMetas(metas)
    ensures var n := |metas| - 1;
            && DistinctMetas(metas[..n]) && Key(metas[n]) !in Keys(metas[..n])
            && Keys(metas) == Keys(metas[..n]) + {Key(metas[n])}
  {
    var n := |metas| - 1;
    forall i | 0 <= i < n ensures metas[..n][i] == metas[i] && Key(metas[i]) != Key(metas[n]) {
    }
    forall k | k in Keys(metas) ensures k in Keys(metas[..n]) + {Key(metas[n])} {
      var i :| 0 <= i < |metas| && k == Key(metas[i]);
      if i < n { assert k == Key(metas[..n][i]); }
    }
    forall k | k in Keys(metas[..n]) ensures k in Keys(metas) {
      var i :| 0 <= i < n && k == Key(metas[..n][i]);
      assert k == Key(metas[i]);
    }
  }

  ghost function Rows(db: Db, id: int, created: bool): set<(string, string)> {
    set k | k in db.history && db.history[k].escrowId == id && IsCreation(db.history[k]) == created
  }

  predicate IsCreation(row: HistoryRow) { row.action == "created" }

  lemma CreationText(id: int, action: Action, txHash: string, ledger: nat)
    ensures IsCreation(HistoryRow(id, ActionText(action), txHash, ledger)) <==> action == ActCreated
  {
    assert |"created"| == 7 && |"released"| == 8 && |"refunded"| == 8 && |"cancelled"| == 9;
  }

  /** Each event has its own row, so rows count events. */
  lemma {:induction false} RowsCountEvents(log: seq<Event>, metas: seq<Meta>, id: nat)
    requires |metas| == |log| && DistinctMetas(metas)
    ensures |Rows(Replay(log, metas), id, true)| == Tally(log, CreatedTerm(id))
    ensures |Rows(Replay(log, metas), id, false)| == Tally(log, SettledTerm(id))
    ensures Replay(log, metas).history.Keys <= Keys(metas)
  {
    hide Apply, Encode, Shows, ActionText, Rows, CreatedTerm, SettledTerm, Keys;
    if log == [] {
      NoRows(id);
    } else {
      var n := |log| - 1;
      var db, ev, meta := Replay(log[..n], metas[..n]), log[n], metas[n];
      LastKeyIsNew(metas);
      RowsCountEvents(log[..n], metas[..n], id);
      ApplyEncoded(db, ev, meta);
      RowAdded(db, Apply(db, Encode(ev, meta)), ev, meta, id);
    }
  }

  lemma NoRows(id: int)
    ensures Rows(Db(map[], map[]), id, true) == {} && Rows(Db(map[], map[]), id, false) == {}
  {
  }

  lemma RowAdded(db: Db, after: Db, ev: Event, meta: Meta, id: nat)
    requires Key(meta) !in db.history
    requires if ev.Lifecycle? then
               after.history == db.history[Key(meta) := HistoryRow(ev.id, ActionText(ev.action), meta.txHash, meta.ledger)]
             else after.history == db.history
    ensures |Rows(after, id, true)| == |Rows(db, id, true)| + CreatedTerm(id)(ev)
    ensures |Rows(after, id, false)| == |Rows(db, id, false)| + SettledTerm(id)(ev)
  {
    hide ActionText, IsCreation, Rows;
    if ev.Lifecycle? {
      var row := HistoryRow(ev.id, ActionText(ev.action), meta.txHash, meta.ledger);
      CreationText(ev.id, ev.action, meta.txHash, meta.ledger);
      RowInserted(db, after, Key(meta), row, id, true);
      RowInserted(db, after, Key(meta), row, id, false);
    } else {
      SameRows(db, after, id);
    }
  }

  lemma RowInserted(db: Db, after: Db, key: (string, string), row: HistoryRow, id: nat, created: bool)
    requires key !in db.history && after.history == db.history[key := row]
    ensures |Rows(after, id, created)| == |Rows(db, id, created)| + if row.escrowId == id && IsCreation(row) == created then 1 else 0
  {
    hide IsCreation, Rows;
    forall k ensures k in Rows(after, id, created) <==>
                       k in Rows(db, id, created) || (k == key && row.escrowId == id && IsCreation(row) == created) {
      RowMember(db, id, created, k);
      RowMember(after, id, created, k);
    }
    RowMember(db, id, created, key);
    if row.escrowId == id && IsCreation(row) == created {
      assert Rows(after, id, created) == Rows(db, id, created) + {key};
    } else {
      assert Rows(after, id, created) == Rows(db, id, created);
    }
  }

  lemma RowMember(db: Db, id: int, created: bool, k: (string, string))
    ensures k in Rows(db, id, created) <==>
              k in db.history && db.history[k].escrowId == id && IsCreation(db.history[k]) == created
  {
  }

  lemma SameRows(db: Db, after: Db, id: nat)
    requires after.history == db.history
    ensures Rows(after, id, true) == Rows(db, id, true) && Rows(after, id, false) == Rows(db, id, false)
  {
  }

  // ---- the agreement -----------------------------------------------------

  lemma StatusKeys(t: State)
    requires Inv(t)
    ensures t.status.Keys == t.escrows.Keys
  {
  }

  /**
   * After replaying the event stream of any run, the index has exactly the stored
   * ids with their stored statuses, shows every published field of each settled
   * escrow, and its history holds one creation and at most one settlement per id.
   */
  lemma IndexAgreesWithStorage(s: State, steps: seq<Step>, metas: seq<Meta>, id: nat)
    requires Deployed(s)
    requires |metas| == |Run(s, steps).events| && DistinctMetas(metas)
    ensures var t := Run(s, steps);
            var db := Replay(t.events, metas);
            && (id in db.records <==> id in t.escrows)
            && (id in t.status <==> id in t.escrows)
            && (id in t.escrows ==>
                  && db.records[id].status == (match t.status[id]
                                               case Funded => "Funded"
                                               case Released => "Released"
                                               case Refunded => "Refunded"
                                               case Cancelled => "Cancelled")
                  && LastMeta(t.events, metas, id).Some?
                  && db.records[id].updatedLedger == LastMeta(t.events, metas, id).value.ledger
                  && (t.status[id] != Funded ==> Shows(db.records[id], id, t.escrows[id]))
                  && |Rows(db, id, true)| == 1
                  && |Rows(db, id, false)| == (if t.status[id] != Funded then 1 else 0))
  {
    MirroredOverRuns(s, steps, id);
    LedgeredOverRuns(s, steps, id, Contract);
    var t := Run(s, steps);
    ReplayShowsLast(t.events, metas, id);
    RowsCountEvents(t.events, metas, id);
    if id in t.escrows { RecordFacts(t, id); }
    StatusKeys(t);
    hide Inv, Replay, Rows, Tally, LastSnapshot, Run, Conserved, Remembered;
  }
}
