// The settlement driver: an approved outcome file is worked off across runs
// that may fail or die at any point, with a state file of what is settled.
module SettleOutcomes {
  import opened Prelude

  const ACTIONS: set<string> := {"release", "refund"}
  const U64_MAX: int := 0xFFFF_FFFF_FFFF_FFFF

  // ---- files -------------------------------------------------------------

  /** JSON values as far as the driver tells them apart. */
  datatype Json = Number(n: int) | Bool(b: bool) | Text(s: string) | Null | Composite(empty: bool)

  /** The members the driver looks at; a missing member is `None`. */
  datatype Row = NotObject | Object(id: Option<Json>, action: Option<Json>, tx: Option<Json>)

  datatype Line = Blank | Garbage | Parsed(row: Row)

  /** A state file, or none yet. */
  type File = Option<seq<Line>>

  datatype EscrowId = EscrowId(n: int)

  type State = map<EscrowId, Row>

  datatype Outcome = Outcome(id: EscrowId, action: string)

  datatype Result<+T> = Ok(value: T) | Abort
  {
    predicate IsFailure() { Abort? }
    function PropagateFailure<U>(): Result<U>
      requires IsFailure()
    {
      Abort
    }
    function Extract(): T
      requires Ok?
    {
      value
    }
  }

  predicate Truthy(j: Json) {
    match j
    case Number(n) => n != 0
    case Bool(b) => b
    case Text(s) => s != ""
    case Null => false
    case Composite(empty) => !empty
  }

  predicate IsAction(j: Option<Json>) { j.Some? && j.value.Text? && j.value.s in ACTIONS }

  // ---- outcomes ----------------------------------------------------------

  predicate GoodRow(row: Row) {
    && row.Object?
    && row.id.Some? && row.id.value.Number? && 0 <= row.id.value.n <= U64_MAX
    && IsAction(row.action)
  }

  function OutcomeOf(row: Row): Outcome
    requires GoodRow(row)
  {
    Outcome(EscrowId(row.id.value.n), row.action.value.s)
  }

  /** A non-empty list of well-formed rows that names no escrow twice. */
  predicate GoodRows(rows: seq<Row>) {
    && rows != []
    && (forall i :: 0 <= i < |rows| ==> GoodRow(rows[i]))
    && forall i, j :: 0 <= i < j < |rows| ==> rows[i].id != rows[j].id
  }

  function OutcomesOf(rows: seq<Row>): seq<Outcome>
    requires forall i :: 0 <= i < |rows| ==> GoodRow(rows[i])
  {
    seq(|rows|, i requires 0 <= i < |rows| => OutcomeOf(rows[i]))
  }

  /** A row that names an escrow by a 64-bit number and says to release or refund it. */
  predicate ApprovedRow(row: Row) {
    match row
    case Object(Some(Number(n)), Some(Text(action)), _) =>
      0 <= n <= 18446744073709551615 && (action == "release" || action == "refund")
    case _ => false
  }

  /** The outcome a row states. */
  predicate States(row: Row, o: Outcome) {
    row.Object? && row.id == Some(Number(o.id.n)) && row.action == Some(Text(o.action))
  }

  method LoadOutcomes(rows: seq<Row>) returns (r: Result<seq<Outcome>>)
    ensures r == if GoodRows(rows) then Ok(OutcomesOf(rows)) else Abort
    ensures r.Ok? <==>
              && rows != [] && (forall i :: 0 <= i < |rows| ==> ApprovedRow(rows[i]))
              && forall i, j :: 0 <= i < j < |rows| ==> rows[i].id != rows[j].id
    ensures r.Ok? ==> |r.value| == |rows| && forall i :: 0 <= i < |rows| ==> States(rows[i], r.value[i])
  {
    hide ApprovedRow, States;
    RowsMeaning(rows);
    if rows == [] { return Abort; }
    var seen: set<int> := {};
    var outcomes: seq<Outcome> := [];
    for i := 0 to |rows|
      invariant forall k :: 0 <= k < i ==> GoodRow(rows[k]) && rows[k].id.value.n in seen
      invariant forall n :: n in seen ==> exists k :: 0 <= k < i && rows[k].id == Some(Number(n))
      invariant forall j, k :: 0 <= j < k < i ==> rows[j].id != rows[k].id
      invariant outcomes == OutcomesOf(rows[..i])
    {
      var row := rows[i];
      if !row.Object? { return Abort; }
      if row.id.None? || !row.id.value.Number? || !(0 <= row.id.value.n <= U64_MAX) { return Abort; }
      if row.id.value.n in seen { return Abort; }
      if !IsAction(row.action) { return Abort; }
      seen := seen + {row.id.value.n};
      outcomes := outcomes + [Outcome(EscrowId(row.id.value.n), row.action.value.s)];
    }
    assert rows[..|rows|] == rows;
    r := Ok(outcomes);
  }

  lemma RowsMeaning(rows: seq<Row>)
    ensures forall i :: 0 <= i < |rows| ==> (GoodRow(rows[i]) <==> ApprovedRow(rows[i]))
    ensures GoodRows(rows) <==>
              && rows != [] && (forall i :: 0 <= i < |rows| ==> ApprovedRow(rows[i]))
              && forall i, j :: 0 <= i < j < |rows| ==> rows[i].id != rows[j].id
    ensures GoodRows(rows) ==> |OutcomesOf(rows)| == |rows| && forall i :: 0 <= i < |rows| ==> States(rows[i], OutcomesOf(rows)[i])
  {
  }

  // ---- the state file ----------------------------------------------------

  /** A record's id; a boolean counts as the number it equals. */
  predicate HasId(row: Row) { row.Object? && row.id.Some? && (row.id.value.Number? || row.id.value.Bool?) }

  function IdOf(row: Row): EscrowId
    requires HasId(row)
  {
    match row.id.value
    case Number(n) => EscrowId(n)
    case Bool(b) => EscrowId(if b then 1 else 0)
  }

  predicate GoodRecord(row: Row) { HasId(row) && IsAction(row.action) && row.tx.Some? && Truthy(row.tx.value) }

  predicate GoodLine(line: Line) { line.Blank? || (line.Parsed? && GoodRecord(line.row)) }

  predicate Readable(lines: seq<Line>) { forall i :: 0 <= i < |lines| ==> GoodLine(lines[i]) }

  /** What the lines record; a later line for an id replaces an earlier one. */
  function StateOf(lines: seq<Line>): State
    requires Readable(lines)
  {
    if lines == [] then map[]
    else
      var n := |lines| - 1;
      var front := StateOf(lines[..n]);
      if lines[n].Blank? then front else front[IdOf(lines[n].row) := lines[n].row]
  }

  function Loaded(file: File): Result<State> {
    if file.None? then Ok(map[])
    else if Readable(file.value) then Ok(StateOf(file.value))
    else Abort
  }

  /** A blank line, or a record of a settled escrow with a transaction hash that is not empty, zero, false or null. */
  predicate StateLine(line: Line) {
    match line
    case Blank => true
    case Parsed(Object(Some(id), Some(Text(action)), Some(tx))) =>
      && (id.Number? || id.Bool?) && (action == "release" || action == "refund")
      && tx != Text("") && tx != Number(0) && tx != Bool(false) && tx != Null && tx != Composite(true)
    case _ => false
  }

  /** The line records this id. */
  predicate RecordsId(line: Line, id: EscrowId) {
    match line
    case Parsed(Object(Some(Number(n)), _, _)) => n == id.n
    case Parsed(Object(Some(Bool(b)), _, _)) => id.n == if b then 1 else 0
    case _ => false
  }

  predicate LastFor(lines: seq<Line>, i: nat, id: EscrowId) {
    i < |lines| && RecordsId(lines[i], id) && forall j :: i < j < |lines| ==> !RecordsId(lines[j], id)
  }

  lemma LinesMeaning(lines: seq<Line>)
    ensures Readable(lines) <==> forall i :: 0 <= i < |lines| ==> StateLine(lines[i])
  {
    assert forall i :: 0 <= i < |lines| ==> (GoodLine(lines[i]) <==> StateLine(lines[i]));
  }

  /** For each id the last line that records it, and no other id. */
  lemma {:induction false} LastRecordWins(lines: seq<Line>, id: EscrowId)
    requires Readable(lines)
    ensures id in StateOf(lines) ==> exists i: nat :: LastFor(lines, i, id) && lines[i] == Parsed(StateOf(lines)[id])
    ensures id !in StateOf(lines) ==> forall i :: 0 <= i < |lines| ==> !RecordsId(lines[i], id)
  {
    if lines != [] {
      var n := |lines| - 1;
      var front := lines[..n];
      LastRecordWins(front, id);
      assert GoodLine(lines[n]);
      if RecordsId(lines[n], id) {
        assert LastFor(lines, n, id);
      } else if id in StateOf(front) {
        var i: nat :| LastFor(front, i, id) && front[i] == Parsed(StateOf(front)[id]);
        assert LastFor(lines, i, id);
      }
    }
  }

  method LoadState(file: File) returns (r: Result<State>)
    ensures r == Loaded(file)
    ensures r.Ok? <==> file.None? || forall i :: 0 <= i < |file.value| ==> StateLine(file.value[i])
  {
    if file.Some? { LinesMeaning(file.value); }
    var state: State := map[];
    if file.None? { return Ok(state); }
    var lines := file.value;
    for i := 0 to |lines|
      invariant Readable(lines[..i]) && state == StateOf(lines[..i])
    {
      assert lines[..i + 1][..i] == lines[..i];
      if lines[i].Blank? { continue; }
      if !lines[i].Parsed? || !GoodRecord(lines[i].row) { return Abort; }
      var record := lines[i].row;
      state := state[IdOf(record) := record];
    }
    assert lines[..|lines|] == lines;
    r := Ok(state);
  }

  predicate IsMin(k: EscrowId, s: set<EscrowId>) { k in s && forall j :: j in s ==> k.n <= j.n }

  lemma {:induction false} HasMin(s: set<EscrowId>)
    requires s != {}
    ensures exists k :: k in s && IsMin(k, s)
  {
    var x :| x in s;
    var rest := s - {x};
    assert forall j :: j in s <==> j == x || j in rest;
    if rest == {} {
      assert IsMin(x, s);
    } else {
      HasMin(rest);
      var k :| k in rest && IsMin(k, rest);
      var least := if x.n < k.n then x else k;
      forall j | j in s ensures least.n <= j.n { assert j == x || j in rest; }
      assert least in s && IsMin(least, s);
    }
  }

  /** The elements in ascending order. */
  ghost function Sorted(s: set<EscrowId>): (ids: seq<EscrowId>)
    ensures forall k :: k in ids <==> k in s
    ensures forall i, j :: 0 <= i < j < |ids| ==> ids[i].n < ids[j].n
  {
    if s == {} then []
    else
      HasMin(s);
      var k :| IsMin(k, s);
      [k] + Sorted(s - {k})
  }

  predicate Within(ids: seq<EscrowId>, state: State) { forall i :: 0 <= i < |ids| ==> ids[i] in state }

  /** A state as lines, one record for each of the ids. */
  ghost function LinesFor(state: State, ids: seq<EscrowId>): (lines: seq<Line>)
    requires Within(ids, state)
    ensures |lines| == |ids| && forall i :: 0 <= i < |ids| ==> lines[i] == Parsed(state[ids[i]])
  {
    seq(|ids|, i requires 0 <= i < |ids| => Parsed(state[ids[i]]))
  }

  ghost function Lines(state: State): seq<Line> {
    assert Within(Sorted(state.Keys), state) by { SortedAt(state.Keys); }
    LinesFor(state, Sorted(state.Keys))
  }

  lemma SortedAt(s: set<EscrowId>)
    ensures forall i :: 0 <= i < |Sorted(s)| ==> Sorted(s)[i] in s
  {
    forall i | 0 <= i < |Sorted(s)| ensures Sorted(s)[i] in s { assert Sorted(s)[i] in Sorted(s); }
  }

  method WriteState(state: State) returns (lines: seq<Line>)
    ensures lines == Lines(state)
  {
    hide Sorted, IsMin, LinesFor, Within;
    lines := [];
    var rest := state.Keys;
    ghost var ids: seq<EscrowId> := [];
    NoLines(state);
    while rest != {}
      invariant rest <= state.Keys && Within(ids, state)
      invariant Sorted(state.Keys) == ids + Sorted(rest)
      invariant lines == LinesFor(state, ids)
    {
      HasMin(rest);
      var k :| k in rest && IsMin(k, rest);
      SortedStep(rest, k);
      OneLine(state, ids, k, Sorted(rest - {k}));
      lines := lines + [Parsed(state[k])];
      ids := ids + [k];
      rest := rest - {k};
    }
    SortedEmpty();
    assert ids + [] == ids;
  }

  lemma NoLines(state: State)
    ensures Within([], state) && LinesFor(state, []) == [] && Sorted(state.Keys) == [] + Sorted(state.Keys)
  {
  }

  lemma OneLine(state: State, ids: seq<EscrowId>, k: EscrowId, rest: seq<EscrowId>)
    requires Within(ids, state) && k in state
    ensures Within(ids + [k], state) && LinesFor(state, ids + [k]) == LinesFor(state, ids) + [Parsed(state[k])]
    ensures ids + ([k] + rest) == (ids + [k]) + rest
  {
  }

  lemma SortedEmpty()
    ensures Sorted({}) == []
  {
  }

  lemma SortedStep(s: set<EscrowId>, k: EscrowId)
    requires IsMin(k, s)
    ensures Sorted(s) == [k] + Sorted(s - {k})
  {
    assert forall j :: IsMin(j, s) ==> j.n <= k.n && k.n <= j.n;
  }

  /** Every record is filed under its own id with a valid action. */
  predicate Filed(state: State) {
    forall k :: k in state ==> HasId(state[k]) && IdOf(state[k]) == k && IsAction(state[k].action) && state[k].tx.Some?
  }

  predicate Hashed(state: State) { forall k :: k in state ==> state[k].Object? && state[k].tx.Some? && Truthy(state[k].tx.value) }

  /** Distinct ids, each with a readable record, load back to exactly those records. */
  lemma {:induction false} LinesHold(state: State, ids: seq<EscrowId>)
    requires Filed(state) && Hashed(state) && Within(ids, state)
    ensures Readable(LinesFor(state, ids))
    ensures forall k :: k in StateOf(LinesFor(state, ids)) <==> k in ids
    ensures forall k :: k in StateOf(LinesFor(state, ids)) ==> k in state && StateOf(LinesFor(state, ids))[k] == state[k]
  {
    var lines := LinesFor(state, ids);
    if ids != [] {
      var n := |ids| - 1;
      assert lines[..n] == LinesFor(state, ids[..n]);
      LinesHold(state, ids[..n]);
      assert forall k :: k in ids <==> k in ids[..n] || k == ids[n] by { assert ids == ids[..n] + [ids[n]]; }
    }
  }

  lemma WrittenLoads(state: State)
    requires Filed(state) && Hashed(state)
    ensures Readable(Lines(state)) && StateOf(Lines(state)) == state
  {
    var ids := Sorted(state.Keys);
    SortedAt(state.Keys);
    LinesHold(state, ids);
    assert StateOf(Lines(state)) == state;
  }

  lemma UnhashedFails(state: State)
    requires Filed(state) && !Hashed(state)
    ensures !Readable(Lines(state))
  {
    var ids := Sorted(state.Keys);
    SortedAt(state.Keys);
    var k :| k in state && !Truthy(state[k].tx.value);
    assert k in ids;
    var i :| 0 <= i < |ids| && ids[i] == k;
    assert !GoodLine(Lines(state)[i]);
  }

  /** What is written loads back as it was, exactly when every transaction hash is non-empty. */
  lemma StateRoundTrip(state: State)
    requires Filed(state)
    ensures Loaded(Some(Lines(state))) == if Hashed(state) then Ok(state) else Abort
  {
    if Hashed(state) { WrittenLoads(state); } else { UnhashedFails(state); }
  }

  lemma {:induction false} LoadedIsFiled(lines: seq<Line>)
    requires Readable(lines)
    ensures Filed(StateOf(lines)) && Hashed(StateOf(lines))
  {
    if lines != [] { LoadedIsFiled(lines[..|lines| - 1]); }
  }

  // ---- submitting --------------------------------------------------------

  /** How the submit command ended; `lines` are its non-blank output lines. */
  datatype Reply = TimedOut | NotRun | Exited(code: int, lines: seq<string>)

  function StripLeft(s: string): string { if s != "" && s[0] == '"' then StripLeft(s[1..]) else s }

  function StripRight(s: string): string {
    if s != "" && s[|s| - 1] == '"' then StripRight(s[..|s| - 1]) else s
  }

  /** `strip('"')`. */
  function Unquoted(s: string): string { StripRight(StripLeft(s)) }

  function Submit(reply: Reply): Option<string> {
    if reply.Exited? && reply.code == 0 && reply.lines != [] then Some(Unquoted(reply.lines[|reply.lines| - 1])) else None
  }

  /** The command exited with code 0 and printed something. */
  predicate Delivered(reply: Reply) { reply.Exited? && reply.code == 0 && reply.lines != [] }

  /** `t` is `s` without the quotes around it. */
  predicate Stripped(s: string, t: string) {
    && (exists i :: 0 <= i <= |s| && StrippedAt(s, t, i))
    && (t != "" ==> t[0] != '"' && t[|t| - 1] != '"')
  }

  predicate StrippedAt(s: string, t: string, i: nat) {
    && i + |t| <= |s| && s[i..i + |t|] == t
    && (forall k :: 0 <= k < i ==> s[k] == '"') && forall k :: i + |t| <= k < |s| ==> s[k] == '"'
  }

  lemma {:induction false} StripLeftParts(s: string)
    ensures |StripLeft(s)| <= |s| && s[|s| - |StripLeft(s)|..] == StripLeft(s)
    ensures forall k :: 0 <= k < |s| - |StripLeft(s)| ==> s[k] == '"'
    ensures StripLeft(s) != "" ==> StripLeft(s)[0] != '"'
  {
    if s != "" && s[0] == '"' {
      var rest := s[1..];
      StripLeftParts(rest);
      assert forall k :: 1 <= k < |s| ==> s[k] == rest[k - 1];
    }
  }

  lemma {:induction false} StripRightParts(s: string)
    ensures |StripRight(s)| <= |s| && s[..|StripRight(s)|] == StripRight(s)
    ensures forall k :: |StripRight(s)| <= k < |s| ==> s[k] == '"'
    ensures StripRight(s) != "" ==> StripRight(s)[|StripRight(s)| - 1] != '"'
  {
    if s != "" && s[|s| - 1] == '"' { StripRightParts(s[..|s| - 1]); }
  }

  lemma UnquotedMeaning(s: string)
    ensures Stripped(s, Unquoted(s))
  {
    var l := StripLeft(s);
    StripLeftParts(s);
    StripRightParts(l);
    var t, i := Unquoted(s), |s| - |l|;
    assert forall k :: i <= k < |s| ==> s[k] == l[k - i];
    assert StrippedAt(s, t, i);
    if t != "" { assert t[0] == l[0]; }
  }

  /** A submission succeeds exactly when the command exits with code 0 and prints a line; the hash is its
      last line without the quotes around it. */
  lemma SubmitMeaning(reply: Reply)
    ensures Submit(reply).Some? <==> Delivered(reply)
    ensures Submit(reply).Some? ==> Stripped(reply.lines[|reply.lines| - 1], Submit(reply).value)
  {
    if Submit(reply).Some? { UnquotedMeaning(reply.lines[|reply.lines| - 1]); }
  }

  predicate OnlyQuotes(s: string) { forall i :: 0 <= i < |s| ==> s[i] == '"' }

  lemma {:induction false} StripLeftMeaning(s: string)
    ensures StripLeft(s) == "" <==> OnlyQuotes(s)
    ensures StripLeft(s) != "" ==> StripLeft(s)[0] != '"'
  {
    if s != "" && s[0] == '"' {
      StripLeftMeaning(s[1..]);
      if OnlyQuotes(s[1..]) {
        assert forall i :: 0 < i < |s| ==> s[i] == s[1..][i - 1];
      }
    }
  }

  lemma {:induction false} StripRightKeeps(s: string)
    requires s != "" && s[0] != '"'
    ensures StripRight(s) != ""
  {
    if |s| > 1 && s[|s| - 1] == '"' { StripRightKeeps(s[..|s| - 1]); }
  }

  /** A successful submission yields an empty hash exactly when its last output line holds only quotes. */
  lemma EmptyHash(reply: Reply)
    requires Submit(reply).Some?
    ensures Submit(reply).value == "" <==> OnlyQuotes(reply.lines[|reply.lines| - 1])
  {
    var last := reply.lines[|reply.lines| - 1];
    StripLeftMeaning(last);
    if StripLeft(last) != "" { StripRightKeeps(StripLeft(last)); }
  }

  // ---- one run -----------------------------------------------------------

  /** Where the process dies, counted in pending rows. */
  datatype Death = Never | BeforeSubmit(at: nat) | BeforeWrite(at: nat) | AfterWrite(at: nat)

  /** What the outside decides in one run: the replies by id and where the process dies. */
  datatype Run = Run(submits: bool, replies: map<EscrowId, Reply>, death: Death)

  datatype Event = Submitted(outcome: Outcome) | Recorded(outcome: Outcome, tx: string)

  datatype Exit = Code(n: int) | Aborted | Died

  datatype Effect = Effect(exit: Exit, file: File, log: seq<Event>)

  function ReplyTo(run: Run, o: Outcome): Option<string> {
    if o.id in run.replies then Submit(run.replies[o.id]) else None
  }

  function Record(o: Outcome, tx: string): Row { Object(Some(Number(o.id.n)), Some(Text(o.action)), Some(Text(tx))) }

  /** The state after working through some rows. */
  function Worked(state: State, rows: seq<Outcome>, run: Run): State {
    if rows == [] then state
    else
      var n := |rows| - 1;
      var before := Worked(state, rows[..n], run);
      if ReplyTo(run, rows[n]).Some? then before[rows[n].id := Record(rows[n], ReplyTo(run, rows[n]).value)] else before
  }

  function LogOf(rows: seq<Outcome>, run: Run): seq<Event> {
    if rows == [] then []
    else
      var n := |rows| - 1;
      LogOf(rows[..n], run) + [Submitted(rows[n])]
      + if ReplyTo(run, rows[n]).Some? then [Recorded(rows[n], ReplyTo(run, rows[n]).value)] else []
  }

  predicate Succeeds(rows: seq<Outcome>, run: Run) { exists i :: 0 <= i < |rows| && ReplyTo(run, rows[i]).Some? }

  predicate AllSucceed(rows: seq<Outcome>, run: Run) { forall i :: 0 <= i < |rows| ==> ReplyTo(run, rows[i]).Some? }

  function Pending(outcomes: seq<Outcome>, state: State): seq<Outcome> {
    if outcomes == [] then []
    else
      var n := |outcomes| - 1;
      Pending(outcomes[..n], state) + if outcomes[n].id !in state then [outcomes[n]] else []
  }

  /** A recorded action that the outcome file contradicts. */
  predicate Conflicts(outcomes: seq<Outcome>, state: State) {
    exists i :: 0 <= i < |outcomes| && outcomes[i].id in state
                && state[outcomes[i].id].Object? && state[outcomes[i].id].action != Some(Text(outcomes[i].action))
  }

  /** How many pending rows of `n` are worked off completely. */
  function Completed(n: nat, death: Death): (m: nat)
    ensures m <= n
  {
    match death
    case Never => n
    case BeforeSubmit(k) => if k < n then k else n
    case BeforeWrite(k) => if k < n then k else n
    case AfterWrite(k) => if k < n then k + 1 else n
  }

  /** The row that is submitted but not recorded because the process dies in between, if any. */
  function Cut(pending: seq<Outcome>, death: Death): seq<Event> {
    if death.BeforeWrite? && death.at < |pending| then [Submitted(pending[death.at])] else []
  }

  predicate Dies(n: nat, death: Death) { !death.Never? && death.at < n }

  ghost function FileAfter(file: File, state: State, done: seq<Outcome>, run: Run): File {
    if Succeeds(done, run) then Some(Lines(Worked(state, done, run))) else file
  }

  /** Working off the pending rows, in file order, until the end or the process's death. */
  ghost function WorkOff(pending: seq<Outcome>, state: State, file: File, run: Run): Effect {
    var done := pending[..Completed(|pending|, run.death)];
    Effect(if Dies(|pending|, run.death) then Died else if AllSucceed(pending, run) then Code(0) else Code(1),
           FileAfter(file, state, done, run),
           LogOf(done, run) + Cut(pending, run.death))
  }

  ghost function Effected(rows: seq<Row>, file: File, run: Run): Effect {
    if !GoodRows(rows) || Loaded(file).Abort? || Conflicts(OutcomesOf(rows), Loaded(file).value) then Effect(Aborted, file, [])
    else if !run.submits then Effect(Code(0), file, [])
    else WorkOff(Pending(OutcomesOf(rows), Loaded(file).value), Loaded(file).value, file, run)
  }

  method Contradicted(outcomes: seq<Outcome>, state: State) returns (b: bool)
    ensures b <==> Conflicts(outcomes, state)
  {
    for i := 0 to |outcomes|
      invariant !Conflicts(outcomes[..i], state)
    {
      var id := outcomes[i].id;
      if id in state && state[id].Object? && state[id].action != Some(Text(outcomes[i].action)) { return true; }
    }
    assert outcomes[..|outcomes|] == outcomes;
    b := false;
  }

  method RunDriver(rows: seq<Row>, file: File, run: Run) returns (exit: Exit, newFile: File, log: seq<Event>)
    ensures Effect(exit, newFile, log) == Effected(rows, file, run)
    ensures forall o, tx :: Recorded(o, tx) in log ==>
              CommandSucceeded(run, o.id) && Stripped(run.replies[o.id].lines[|run.replies[o.id].lines| - 1], tx)
    ensures exit == Code(0) && run.submits ==> OutcomesSettled(rows, file, run)
  {
    hide OutcomesSettled, CommandSucceeded, Stripped;
    RunIsHonest(rows, file, run);
    newFile, log := file, [];
    var outcomes := LoadOutcomes(rows);
    if outcomes.Abort? { return Aborted, newFile, log; }
    var loaded := LoadState(file);
    if loaded.Abort? { return Aborted, newFile, log; }
    var conflict := Contradicted(outcomes.value, loaded.value);
    if conflict { return Aborted, newFile, log; }
    if !run.submits { return Code(0), newFile, log; }
    exit, newFile, log := SubmitPending(Pending(outcomes.value, loaded.value), loaded.value, file, run);
  }

  method SubmitPending(pending: seq<Outcome>, start: State, file: File, run: Run) returns (exit: Exit, newFile: File, log: seq<Event>)
    ensures Effect(exit, newFile, log) == WorkOff(pending, start, file, run)
  {
    hide Lines, ReplyTo, Worked, LogOf, FileAfter, AllSucceed;
    NothingDone(start, file, run);
    newFile, log := file, [];
    var state, failed := start, [];
    for i := 0 to |pending|
      invariant Completed(|pending|, run.death) >= i && (run.death.Never? || run.death.at >= i)
      invariant state == Worked(start, pending[..i], run)
      invariant newFile == FileAfter(file, start, pending[..i], run)
      invariant log == LogOf(pending[..i], run)
      invariant failed == [] <==> AllSucceed(pending[..i], run)
    {
      if run.death == BeforeSubmit(i) { return Died, newFile, log; }
      RowDone(pending, i, start, file, run);
      log := log + [Submitted(pending[i])];
      if run.death == BeforeWrite(i) { return Died, newFile, log; }
      var tx := ReplyTo(run, pending[i]);
      if tx.None? {
        failed := failed + [pending[i].id];
      } else {
        state := state[pending[i].id := Record(pending[i], tx.value)];
        var lines := WriteState(state);
        newFile := Some(lines);
        log := log + [Recorded(pending[i], tx.value)];
      }
      if run.death == AfterWrite(i) { return Died, newFile, log; }
    }
    assert pending[..|pending|] == pending;
    exit := Code(if failed == [] then 0 else 1);
  }

  lemma NothingDone(start: State, file: File, run: Run)
    ensures Worked(start, [], run) == start && FileAfter(file, start, [], run) == file && LogOf([], run) == []
    ensures AllSucceed([], run)
  {
  }

  lemma RowDone(rows: seq<Outcome>, n: nat, start: State, file: File, run: Run)
    requires n < |rows|
    ensures var tx, before, after := ReplyTo(run, rows[n]), rows[..n], rows[..n + 1];
            && (AllSucceed(after, run) <==> AllSucceed(before, run) && tx.Some?)
            && LogOf(after, run) == LogOf(before, run) + [Submitted(rows[n])]
                                    + (if tx.Some? then [Recorded(rows[n], tx.value)] else [])
            && Worked(start, after, run) == (if tx.Some? then Worked(start, before, run)[rows[n].id := Record(rows[n], tx.value)]
                                             else Worked(start, before, run))
            && FileAfter(file, start, after, run) == (if tx.Some? then Some(Lines(Worked(start, after, run)))
                                                      else FileAfter(file, start, before, run))
  {
    hide Lines;
    assert rows[..n + 1][..n] == rows[..n];
    SucceedsNext(rows, n, run);
  }

  lemma SucceedsNext(rows: seq<Outcome>, n: nat, run: Run)
    requires n < |rows|
    ensures Succeeds(rows[..n + 1], run) <==> Succeeds(rows[..n], run) || ReplyTo(run, rows[n]).Some?
    ensures AllSucceed(rows[..n + 1], run) <==> AllSucceed(rows[..n], run) && ReplyTo(run, rows[n]).Some?
  {
    hide ReplyTo;
    var a, b := rows[..n], rows[..n + 1];
    assert b[n] == rows[n] && forall i :: 0 <= i < n ==> b[i] == a[i];
    if Succeeds(a, run) {
      var i :| 0 <= i < n && ReplyTo(run, a[i]).Some?;
      assert ReplyTo(run, b[i]).Some?;
    }
  }

  // ---- what one run does -------------------------------------------------

  predicate DistinctIds(rows: seq<Outcome>) { forall i, j :: 0 <= i < j < |rows| ==> rows[i].id != rows[j].id }

  lemma {:induction false} PendingFacts(outcomes: seq<Outcome>, state: State)
    ensures forall o :: o in Pending(outcomes, state) <==> o in outcomes && o.id !in state
    ensures DistinctIds(outcomes) ==> DistinctIds(Pending(outcomes, state))
  {
    if outcomes != [] {
      var n := |outcomes| - 1;
      PendingFacts(outcomes[..n], state);
      assert forall o :: o in outcomes <==> o in outcomes[..n] || o == outcomes[n] by {
        assert outcomes == outcomes[..n] + [outcomes[n]];
      }
      var front := Pending(outcomes[..n], state);
      if DistinctIds(outcomes) && outcomes[n].id !in state {
        forall i | 0 <= i < |front| ensures front[i].id != outcomes[n].id {
          assert front[i] in front;
          var j :| 0 <= j < n && outcomes[j] == front[i];
        }
      }
    }
  }

  lemma OutcomesFacts(rows: seq<Row>)
    requires GoodRows(rows)
    ensures DistinctIds(OutcomesOf(rows))
    ensures forall o :: o in OutcomesOf(rows) ==> o.action in ACTIONS
  {
  }

  /** Some row was worked off successfully with this result. */
  predicate Settles(rows: seq<Outcome>, run: Run, o: Outcome, tx: string) { o in rows && ReplyTo(run, o) == Some(tx) }

  lemma {:induction false} LogFacts(rows: seq<Outcome>, run: Run)
    requires DistinctIds(rows)
    ensures forall o :: Submitted(o) in LogOf(rows, run) <==> o in rows
    ensures forall o, tx :: Recorded(o, tx) in LogOf(rows, run) <==> Settles(rows, run, o, tx)
    ensures NoneAfterRecord(LogOf(rows, run))
  {
    hide ReplyTo, NoneAfterRecord;
    if rows != [] {
      var n := |rows| - 1;
      var front := rows[..n];
      LogFacts(front, run);
      FrontIsOther(rows, run);
      RecordFollows(LogOf(front, run), rows[n], ReplyTo(run, rows[n]));
    } else {
      NothingLogged();
    }
  }

  lemma NothingLogged()
    ensures NoneAfterRecord([])
  {
  }

  lemma FrontIsOther(rows: seq<Outcome>, run: Run)
    requires rows != [] && DistinctIds(rows)
    ensures var front, last := rows[..|rows| - 1], rows[|rows| - 1];
            && (forall o :: o in rows <==> o in front || o == last)
            && (forall o :: o in front ==> o.id != last.id)
            && (forall o, tx :: Settles(rows, run, o, tx) <==> Settles(front, run, o, tx) || (o == last && ReplyTo(run, o) == Some(tx)))
  {
    hide ReplyTo;
    assert rows == rows[..|rows| - 1] + [rows[|rows| - 1]];
  }

  /** No escrow is submitted again once it is recorded. */
  predicate NoneAfterRecord(log: seq<Event>) {
    forall i, j :: 0 <= i < j < |log| && log[i].Recorded? && log[j].Submitted? ==> log[i].outcome.id != log[j].outcome.id
  }

  lemma RecordFollows(log: seq<Event>, o: Outcome, tx: Option<string>)
    requires NoneAfterRecord(log) && forall e :: e in log && e.Recorded? ==> e.outcome.id != o.id
    ensures NoneAfterRecord(log + [Submitted(o)] + if tx.Some? then [Recorded(o, tx.value)] else [])
  {
    assert forall i :: 0 <= i < |log| ==> log[i] in log;
  }

  lemma {:induction false} WorkedKeeps(state: State, rows: seq<Outcome>, run: Run)
    requires Filed(state) && forall o :: o in rows ==> o.action in ACTIONS && o.id !in state
    ensures Filed(Worked(state, rows, run))
    ensures forall k :: k in state ==> k in Worked(state, rows, run) && Worked(state, rows, run)[k] == state[k]
  {
    if rows != [] {
      var n := |rows| - 1;
      WorkedKeeps(state, rows[..n], run);
      assert rows[n] in rows;
    }
  }

  /** Beyond what was recorded before, the state holds the rows that were worked off, with their hashes. */
  ghost predicate Accounts(state: State, after: State, rows: seq<Outcome>, run: Run) {
    && (forall o, tx :: Settles(rows, run, o, tx) ==> o.id in after && after[o.id] == Record(o, tx))
    && (forall k :: k in after ==> k in state || SettlesId(rows, run, k))
  }

  predicate SettlesId(rows: seq<Outcome>, run: Run, k: EscrowId) {
    exists i :: 0 <= i < |rows| && rows[i].id == k && ReplyTo(run, rows[i]).Some?
  }

  lemma {:induction false} WorkedAccounts(state: State, rows: seq<Outcome>, run: Run)
    requires DistinctIds(rows)
    ensures Accounts(state, Worked(state, rows, run), rows, run)
  {
    hide ReplyTo, Record;
    if rows != [] {
      var n := |rows| - 1;
      var front := rows[..n];
      WorkedAccounts(state, front, run);
      var before, after := Worked(state, front, run), Worked(state, rows, run);
      forall o, tx | Settles(rows, run, o, tx) ensures o.id in after && after[o.id] == Record(o, tx) {
        var i :| 0 <= i < |rows| && rows[i] == o;
        if i < n {
          assert front[i] == o;
          assert Settles(front, run, o, tx);
        }
      }
      forall k | k in after && k !in state ensures SettlesId(rows, run, k) {
        if k in before {
          var i :| 0 <= i < n && front[i].id == k && ReplyTo(run, front[i]).Some?;
          assert rows[i] == front[i];
        } else {
          assert rows[n].id == k;
        }
      }
    }
  }

  /** The escrow is on record; an unreadable file keeps every later run from starting. */
  predicate OnRecord(file: File, id: EscrowId) { Loaded(file).Ok? ==> id in Loaded(file).value }

  predicate HashesPresent(log: seq<Event>) { forall i :: 0 <= i < |log| && log[i].Recorded? ==> log[i].tx != "" }

  /** A readable file keeps its records; an unreadable one stays as it is. */
  predicate Extends(before: File, after: File) {
    if Loaded(before).Abort? then after == before
    else Loaded(after).Ok? ==>
           forall k :: k in Loaded(before).value ==> k in Loaded(after).value && Loaded(after).value[k] == Loaded(before).value[k]
  }

  lemma LoadedFacts(file: File)
    requires Loaded(file).Ok?
    ensures Filed(Loaded(file).value) && Hashed(Loaded(file).value)
  {
    if file.Some? { LoadedIsFiled(file.value); }
  }

  /** What a run starts its work from. */
  predicate Ready(pending: seq<Outcome>, state: State, file: File) {
    Loaded(file) == Ok(state) && DistinctIds(pending) && forall o :: o in pending ==> o.action in ACTIONS && o.id !in state
  }

  /** A run that is neither refused nor a listing works off the outcomes not on record. */
  predicate Works(rows: seq<Row>, file: File, run: Run) {
    GoodRows(rows) && Loaded(file).Ok? && !Conflicts(OutcomesOf(rows), Loaded(file).value) && run.submits
  }

  lemma RunStarts(rows: seq<Row>, file: File, run: Run)
    ensures !Works(rows, file, run) ==> Effected(rows, file, run).file == file && Effected(rows, file, run).log == []
    ensures Works(rows, file, run) ==>
              var state := Loaded(file).value;
              var pending := Pending(OutcomesOf(rows), state);
              Ready(pending, state, file) && Effected(rows, file, run) == WorkOff(pending, state, file, run)
  {
    hide WorkOff, Conflicts, Loaded, GoodRow;
    if Works(rows, file, run) {
      OutcomesFacts(rows);
      PendingFacts(OutcomesOf(rows), Loaded(file).value);
    }
  }

  lemma DoneIsReady(pending: seq<Outcome>, state: State, file: File, m: nat)
    requires Ready(pending, state, file) && m <= |pending|
    ensures Ready(pending[..m], state, file) && forall o :: o in pending[..m] ==> o in pending
  {
  }

  /** The log of a run: only pending rows are submitted, none after its record, and every record is of a row worked off. */
  lemma WorkLog(pending: seq<Outcome>, state: State, file: File, run: Run)
    requires Ready(pending, state, file)
    ensures var log, done := WorkOff(pending, state, file, run).log, pending[..Completed(|pending|, run.death)];
            && NoneAfterRecord(log)
            && (forall o :: Submitted(o) in log ==> o in pending)
            && (forall o, tx :: Recorded(o, tx) in log <==> Settles(done, run, o, tx))
  {
    hide LogOf, FileAfter, Settles, Loaded;
    var m := Completed(|pending|, run.death);
    var done := pending[..m];
    DoneIsReady(pending, state, file, m);
    LogFacts(done, run);
    if Cut(pending, run.death) != [] {
      var o := pending[run.death.at];
      assert Cut(pending, run.death) == [Submitted(o)] && o in pending;
      forall e | e in LogOf(done, run) && e.Recorded? ensures e.outcome.id != o.id {
        assert Settles(done, run, e.outcome, e.tx);
        SettlesIsDone(done, run, e.outcome, e.tx);
        var i :| 0 <= i < m && pending[i] == e.outcome;
      }
      RecordFollows(LogOf(done, run), o, None);
    }
  }

  lemma SettlesIsDone(done: seq<Outcome>, run: Run, o: Outcome, tx: string)
    requires Settles(done, run, o, tx)
    ensures o in done && ReplyTo(run, o) == Some(tx)
  {
  }

  /** The file after a run: readable exactly when no empty hash was recorded, and then it holds what it
      held before and every row worked off, nothing else. */
  lemma WorkFile(pending: seq<Outcome>, state: State, file: File, run: Run)
    requires Ready(pending, state, file)
    ensures var e, done := WorkOff(pending, state, file, run), pending[..Completed(|pending|, run.death)];
            && (Loaded(e.file).Ok? <==> HashesPresent(e.log))
            && (Loaded(e.file).Ok? ==> Loaded(e.file).value == Worked(state, done, run))
            && Extends(file, e.file)
            && Accounts(state, Worked(state, done, run), done, run)
  {
    hide LogOf, Settles, Loaded, Accounts, Worked, Filed, Hashed, HashesPresent, NoEmptyHash, Lines, DistinctIds, Succeeds;
    var m := Completed(|pending|, run.death);
    var done := pending[..m];
    DoneIsReady(pending, state, file, m);
    LoadedFacts(file);
    WorkedKeeps(state, done, run);
    WorkedAccounts(state, done, run);
    HashesMeaning(state, done, run);
    WorkLog(pending, state, file, run);
    LogHashes(WorkOff(pending, state, file, run).log, done, run);
    if Succeeds(done, run) {
      StateRoundTrip(Worked(state, done, run));
    } else {
      NothingWorked(state, done, run);
    }
  }

  lemma {:induction false} NothingWorked(state: State, rows: seq<Outcome>, run: Run)
    requires !Succeeds(rows, run)
    ensures Worked(state, rows, run) == state
  {
    if rows != [] {
      SucceedsNext(rows, |rows| - 1, run);
      assert rows[..|rows|] == rows;
      NothingWorked(state, rows[..|rows| - 1], run);
    }
  }

  ghost predicate NoEmptyHash(rows: seq<Outcome>, run: Run) { forall o, tx :: Settles(rows, run, o, tx) ==> tx != "" }

  lemma LogHashes(log: seq<Event>, rows: seq<Outcome>, run: Run)
    requires forall o, tx :: Recorded(o, tx) in log <==> Settles(rows, run, o, tx)
    ensures HashesPresent(log) <==> NoEmptyHash(rows, run)
  {
    hide Settles;
    if NoEmptyHash(rows, run) {
      forall i | 0 <= i < |log| && log[i].Recorded? ensures log[i].tx != "" {
        assert Recorded(log[i].outcome, log[i].tx) in log;
      }
    }
    if HashesPresent(log) {
      forall o, tx | Settles(rows, run, o, tx) ensures tx != "" {
        assert Recorded(o, tx) in log;
      }
    }
  }

  lemma HashesMeaning(state: State, rows: seq<Outcome>, run: Run)
    requires DistinctIds(rows) && Hashed(state) && forall o :: o in rows ==> o.id !in state
    requires forall k :: k in state ==> k in Worked(state, rows, run) && Worked(state, rows, run)[k] == state[k]
    ensures Hashed(Worked(state, rows, run)) <==> NoEmptyHash(rows, run)
  {
    hide ReplyTo;
    WorkedAccounts(state, rows, run);
    var after := Worked(state, rows, run);
    if NoEmptyHash(rows, run) {
      forall k | k in after ensures after[k].Object? && after[k].tx.Some? && Truthy(after[k].tx.value) {
        if k !in state {
          var i :| 0 <= i < |rows| && rows[i].id == k && ReplyTo(run, rows[i]).Some?;
          assert Settles(rows, run, rows[i], ReplyTo(run, rows[i]).value);
        }
      }
    }
    if Hashed(after) {
      forall o, tx | Settles(rows, run, o, tx) ensures tx != "" {
        assert after[o.id] == Record(o, tx);
      }
    }
  }

  // ---- any sequence of runs ----------------------------------------------

  /** The state file after a sequence of runs on one outcome file. */
  ghost function FileOver(rows: seq<Row>, file: File, runs: seq<Run>): File {
    if runs == [] then file
    else
      var n := |runs| - 1;
      Effected(rows, FileOver(rows, file, runs[..n]), runs[n]).file
  }

  ghost function LogOver(rows: seq<Row>, file: File, runs: seq<Run>): seq<Event> {
    if runs == [] then []
    else
      var n := |runs| - 1;
      LogOver(rows, file, runs[..n]) + Effected(rows, FileOver(rows, file, runs[..n]), runs[n]).log
  }

  /** What one run guarantees about its file and log. */
  ghost predicate Sane(file: File, e: Effect) {
    && NoneAfterRecord(e.log)
    && (forall o :: Submitted(o) in e.log ==> Loaded(file).Ok? && o.id !in Loaded(file).value)
    && (forall o, tx :: Recorded(o, tx) in e.log ==> OnRecord(e.file, o.id))
    && Extends(file, e.file)
    && (Loaded(file).Ok? ==> (Loaded(e.file).Ok? <==> HashesPresent(e.log)))
  }

  lemma RunIsSane(rows: seq<Row>, file: File, run: Run)
    ensures Sane(file, Effected(rows, file, run))
  {
    hide WorkOff, Loaded, Effected, Worked, Settles, HashesPresent, GoodRow, Conflicts;
    RunStarts(rows, file, run);
    if Works(rows, file, run) {
      var state := Loaded(file).value;
      var pending := Pending(OutcomesOf(rows), state);
      WorkLog(pending, state, file, run);
      WorkFile(pending, state, file, run);
    } else {
      IdleIsSane(file, []);
    }
  }

  lemma IdleIsSane(file: File, log: seq<Event>)
    requires log == []
    ensures Extends(file, file) && HashesPresent(log)
  {
  }

  /** Over any runs, dying anywhere: an escrow on record is never submitted again. */
  lemma {:induction false} NeverResubmitted(rows: seq<Row>, file: File, runs: seq<Run>)
    ensures NoneAfterRecord(LogOver(rows, file, runs))
    ensures forall o :: Submitted(o) in LogOver(rows, file, runs) ==> !OnRecord(file, o.id)
    ensures forall o, tx :: Recorded(o, tx) in LogOver(rows, file, runs) ==> OnRecord(FileOver(rows, file, runs), o.id)
    ensures Extends(file, FileOver(rows, file, runs))
  {
    hide Effected, Loaded;
    if runs != [] {
      var n := |runs| - 1;
      var middle := FileOver(rows, file, runs[..n]);
      NeverResubmitted(rows, file, runs[..n]);
      var e := Effected(rows, middle, runs[n]);
      RunIsSane(rows, middle, runs[n]);
      LogsJoin(LogOver(rows, file, runs[..n]), e.log, middle);
    }
  }

  lemma LogsJoin(before: seq<Event>, after: seq<Event>, middle: File)
    requires NoneAfterRecord(before) && NoneAfterRecord(after)
    requires forall o, tx :: Recorded(o, tx) in before ==> OnRecord(middle, o.id)
    requires forall o :: Submitted(o) in after ==> !OnRecord(middle, o.id)
    ensures NoneAfterRecord(before + after)
  {
    forall i, j | 0 <= i < j < |before + after| && (before + after)[i].Recorded? && (before + after)[j].Submitted?
      ensures (before + after)[i].outcome.id != (before + after)[j].outcome.id
    {
      if i < |before| <= j {
        assert before[i] in before && after[j - |before|] in after;
        assert before[i] == Recorded(before[i].outcome, before[i].tx);
        assert after[j - |before|] == Submitted(after[j - |before|].outcome);
      }
    }
  }

  /** The file stays readable, and so work can resume, exactly as long as no empty hash was recorded. */
  lemma {:induction false} ResumableUntilEmptyHash(rows: seq<Row>, file: File, runs: seq<Run>)
    requires Loaded(file).Ok?
    ensures Loaded(FileOver(rows, file, runs)).Ok? <==> HashesPresent(LogOver(rows, file, runs))
  {
    hide Effected, Loaded, Works;
    if runs != [] {
      var n := |runs| - 1;
      var middle := FileOver(rows, file, runs[..n]);
      ResumableUntilEmptyHash(rows, file, runs[..n]);
      RunIsSane(rows, middle, runs[n]);
      UnreadableIsIdle(rows, middle, runs[n]);
      HashesJoin(LogOver(rows, file, runs[..n]), Effected(rows, middle, runs[n]).log);
    }
  }

  lemma UnreadableIsIdle(rows: seq<Row>, file: File, run: Run)
    ensures Loaded(file).Abort? ==> Effected(rows, file, run) == Effect(Aborted, file, [])
  {
  }

  lemma HashesJoin(a: seq<Event>, b: seq<Event>)
    ensures HashesPresent(a + b) <==> HashesPresent(a) && HashesPresent(b)
  {
    var all := a + b;
    assert forall i :: 0 <= i < |a| ==> all[i] == a[i];
    assert forall i :: 0 <= i < |b| ==> all[|a| + i] == b[i];
  }

  /** Records agree with the outcome file, and each either was there at first or is one the log reports. */
  ghost predicate Faithful(rows: seq<Row>, first: File, log: seq<Event>, file: File)
    requires GoodRows(rows)
  {
    Loaded(first).Ok? && Loaded(file).Ok? ==>
      && !Conflicts(OutcomesOf(rows), Loaded(file).value)
      && forall k :: k in Loaded(file).value && k !in Loaded(first).value ==> Reported(log, k, Loaded(file).value[k])
  }

  predicate Reported(log: seq<Event>, k: EscrowId, record: Row) {
    exists i :: 0 <= i < |log| && log[i].Recorded? && log[i].outcome.id == k && Shows(record, log[i].outcome, log[i].tx)
  }

  /** The record names the escrow, the action and the hash. */
  predicate Shows(record: Row, o: Outcome, tx: string) {
    record == Object(Some(Number(o.id.n)), Some(Text(o.action)), Some(Text(tx)))
  }

  lemma WorkedAgrees(rows: seq<Row>, state: State, done: seq<Outcome>, run: Run, log: seq<Event>)
    requires GoodRows(rows) && !Conflicts(OutcomesOf(rows), state) && DistinctIds(done)
    requires forall o :: o in done ==> o in OutcomesOf(rows) && o.id !in state
    requires forall k :: k in state ==> k in Worked(state, done, run) && Worked(state, done, run)[k] == state[k]
    requires forall o, tx :: Settles(done, run, o, tx) ==> Recorded(o, tx) in log
    ensures !Conflicts(OutcomesOf(rows), Worked(state, done, run))
    ensures forall k :: k in Worked(state, done, run) && k !in state ==> Reported(log, k, Worked(state, done, run)[k])
  {
    hide ReplyTo, Worked, GoodRow, OutcomeOf;
    WorkedAccounts(state, done, run);
    OutcomesFacts(rows);
    var after, outcomes := Worked(state, done, run), OutcomesOf(rows);
    forall k | k in after && k !in state
      ensures exists o, tx :: o in done && o.id == k && after[k] == Record(o, tx) && Recorded(o, tx) in log
    {
      var i :| 0 <= i < |done| && done[i].id == k && ReplyTo(run, done[i]).Some?;
      assert Settles(done, run, done[i], ReplyTo(run, done[i]).value);
      assert Recorded(done[i], ReplyTo(run, done[i]).value) in log;
    }
    forall i | 0 <= i < |outcomes| && outcomes[i].id in after && after[outcomes[i].id].Object?
      ensures after[outcomes[i].id].action == Some(Text(outcomes[i].action))
    {
      var k := outcomes[i].id;
      if k !in state {
        var o, tx :| o in done && o.id == k && after[k] == Record(o, tx) && Recorded(o, tx) in log;
        var j :| 0 <= j < |outcomes| && outcomes[j] == o;
      }
    }
  }

  lemma {:induction false} RunsAreFaithful(rows: seq<Row>, file: File, runs: seq<Run>)
    requires GoodRows(rows) && (Loaded(file).Ok? ==> !Conflicts(OutcomesOf(rows), Loaded(file).value))
    ensures Extends(file, FileOver(rows, file, runs))
    ensures Faithful(rows, file, LogOver(rows, file, runs), FileOver(rows, file, runs))
  {
    hide Effected, Loaded, GoodRow, Conflicts, Reported, WorkOff;
    NeverResubmitted(rows, file, runs);
    if runs != [] {
      var n := |runs| - 1;
      var middle := FileOver(rows, file, runs[..n]);
      RunsAreFaithful(rows, file, runs[..n]);
      var before, e := LogOver(rows, file, runs[..n]), Effected(rows, middle, runs[n]);
      RunStarts(rows, middle, runs[n]);
      RunIsSane(rows, middle, runs[n]);
      if Loaded(e.file).Ok? && Loaded(file).Ok? {
        if Works(rows, middle, runs[n]) {
          OneRunFaithful(rows, middle, runs[n]);
        }
        ReportsJoin(before, e.log);
      }
    }
  }

  lemma ReportsJoin(a: seq<Event>, b: seq<Event>)
    ensures forall k, record :: Reported(a, k, record) || Reported(b, k, record) ==> Reported(a + b, k, record)
  {
    hide Shows;
    forall k, record | Reported(a, k, record) || Reported(b, k, record) ensures Reported(a + b, k, record) {
      if Reported(a, k, record) {
        var i :| 0 <= i < |a| && a[i].Recorded? && a[i].outcome.id == k && Shows(record, a[i].outcome, a[i].tx);
        assert (a + b)[i] == a[i];
      } else {
        var i :| 0 <= i < |b| && b[i].Recorded? && b[i].outcome.id == k && Shows(record, b[i].outcome, b[i].tx);
        assert (a + b)[|a| + i] == b[i];
      }
    }
  }

  lemma OneRunFaithful(rows: seq<Row>, file: File, run: Run)
    requires Works(rows, file, run)
    ensures Faithful(rows, file, Effected(rows, file, run).log, Effected(rows, file, run).file)
  {
    hide WorkOff, Effected, Loaded, GoodRow, Conflicts, Reported, Settles;
    RunStarts(rows, file, run);
    var state := Loaded(file).value;
    var pending := Pending(OutcomesOf(rows), state);
    var m := Completed(|pending|, run.death);
    PendingFacts(OutcomesOf(rows), state);
    DoneIsReady(pending, state, file, m);
    LoadedFacts(file);
    WorkLog(pending, state, file, run);
    WorkFile(pending, state, file, run);
    WorkedKeeps(state, pending[..m], run);
    WorkedAgrees(rows, state, pending[..m], run, Effected(rows, file, run).log);
  }

  /** A finished run reports success exactly when it leaves every outcome on record; then nothing is
      left for a later run to submit. */
  lemma FinishedRun(rows: seq<Row>, file: File, run: Run, later: Run)
    requires Works(rows, file, run) && Effected(rows, file, run).exit.Code?
    requires HashesPresent(Effected(rows, file, run).log)
    ensures Loaded(Effected(rows, file, run).file).Ok?
    ensures Effected(rows, file, run).exit == Code(0) <==>
            forall o :: o in OutcomesOf(rows) ==> o.id in Loaded(Effected(rows, file, run).file).value
    ensures Effected(rows, file, run).exit == Code(0) ==> Effected(rows, Effected(rows, file, run).file, later).log == []
  {
    hide Loaded, GoodRow, Conflicts, Settles, ReplyTo, Effected, FileAfter, LogOf, Accounts, OutcomesOf, Worked, Filed,
         Hashed, HashesPresent, AllSucceed, Extends, DistinctIds, Pending;
    RunStarts(rows, file, run);
    var outcomes, state, e := OutcomesOf(rows), Loaded(file).value, Effected(rows, file, run);
    var pending := Pending(outcomes, state);
    PendingFacts(outcomes, state);
    LoadedFacts(file);
    WorkFile(pending, state, file, run);
    assert pending[..Completed(|pending|, run.death)] == pending;
    WorkedKeeps(state, pending, run);
    AllWorked(pending, state, run);
    OutcomesWorked(outcomes, pending, state, Worked(state, pending, run));
    if e.exit == Code(0) { NothingLeft(rows, e.file, later); }
  }

  lemma OutcomesWorked(outcomes: seq<Outcome>, pending: seq<Outcome>, state: State, after: State)
    requires forall o :: o in pending <==> o in outcomes && o.id !in state
    requires forall k :: k in state ==> k in after
    ensures (forall i :: 0 <= i < |pending| ==> pending[i].id in after) <==> forall o :: o in outcomes ==> o.id in after
  {
    assert forall i :: 0 <= i < |pending| ==> pending[i] in pending;
    if forall i :: 0 <= i < |pending| ==> pending[i].id in after {
      forall o | o in outcomes ensures o.id in after {
        if o.id !in state { assert o in pending; }
      }
    }
  }

  lemma AllWorked(rows: seq<Outcome>, state: State, run: Run)
    requires DistinctIds(rows) && forall o :: o in rows ==> o.id !in state
    ensures AllSucceed(rows, run) <==> forall i :: 0 <= i < |rows| ==> rows[i].id in Worked(state, rows, run)
  {
    hide ReplyTo, Record;
    WorkedAccounts(state, rows, run);
    var after := Worked(state, rows, run);
    if AllSucceed(rows, run) {
      forall i | 0 <= i < |rows| ensures rows[i].id in after {
        assert Settles(rows, run, rows[i], ReplyTo(run, rows[i]).value);
      }
    }
    if forall i :: 0 <= i < |rows| ==> rows[i].id in after {
      forall i | 0 <= i < |rows| ensures ReplyTo(run, rows[i]).Some? {
        assert rows[i] in rows && SettlesId(rows, run, rows[i].id);
      }
    }
  }

  lemma NothingLeft(rows: seq<Row>, file: File, run: Run)
    requires Loaded(file).Ok? && GoodRows(rows) && forall o :: o in OutcomesOf(rows) ==> o.id in Loaded(file).value
    ensures Effected(rows, file, run).log == []
  {
    hide Loaded, GoodRow, Conflicts, OutcomesOf;
    NonePending(OutcomesOf(rows), Loaded(file).value);
  }

  lemma {:induction false} NonePending(outcomes: seq<Outcome>, state: State)
    requires forall o :: o in outcomes ==> o.id in state
    ensures Pending(outcomes, state) == []
  {
    if outcomes != [] {
      assert outcomes[|outcomes| - 1] in outcomes;
      NonePending(outcomes[..|outcomes| - 1], state);
    }
  }

  // ---- in the files' own terms -------------------------------------------

  /** Every record of an escrow named in the outcome file has the action the file states. */
  predicate AgreesWith(rows: seq<Row>, state: State) {
    forall i, k :: 0 <= i < |rows| && k in state && rows[i].Object? && rows[i].id == Some(Number(k.n)) ==>
      state[k].Object? && state[k].action == rows[i].action
  }

  lemma ConflictsMeaning(rows: seq<Row>, state: State)
    requires GoodRows(rows) && Filed(state)
    ensures Conflicts(OutcomesOf(rows), state) <==> !AgreesWith(rows, state)
  {
    hide GoodRow;
    RowsMeaning(rows);
    var outcomes := OutcomesOf(rows);
    if !AgreesWith(rows, state) {
      var i, k :| 0 <= i < |rows| && k in state && rows[i].Object? && rows[i].id == Some(Number(k.n))
                  && state[k].action != rows[i].action;
      assert States(rows[i], outcomes[i]) && outcomes[i].id == k;
    }
    if Conflicts(outcomes, state) {
      var i :| 0 <= i < |outcomes| && outcomes[i].id in state && state[outcomes[i].id].Object?
               && state[outcomes[i].id].action != Some(Text(outcomes[i].action));
      assert States(rows[i], outcomes[i]);
    }
  }

  /** A recorded action never changes and never contradicts the outcome file, and every new record is one
      the log reports, with its action and hash. */
  lemma RecordsStayFaithful(rows: seq<Row>, file: File, runs: seq<Run>)
    requires GoodRows(rows) && (Loaded(file).Ok? ==> AgreesWith(rows, Loaded(file).value))
    ensures Extends(file, FileOver(rows, file, runs))
    ensures Loaded(file).Ok? && Loaded(FileOver(rows, file, runs)).Ok? ==>
              var first, last := Loaded(file).value, Loaded(FileOver(rows, file, runs)).value;
              && AgreesWith(rows, last)
              && forall k :: k in last && k !in first ==> Reported(LogOver(rows, file, runs), k, last[k])
  {
    hide Loaded, GoodRows, Conflicts, Reported, AgreesWith, LogOver, FileOver;
    if Loaded(file).Ok? {
      LoadedFacts(file);
      ConflictsMeaning(rows, Loaded(file).value);
    }
    RunsAreFaithful(rows, file, runs);
    if Loaded(FileOver(rows, file, runs)).Ok? {
      LoadedFacts(FileOver(rows, file, runs));
      ConflictsMeaning(rows, Loaded(FileOver(rows, file, runs)).value);
    }
  }

  /** A run is refused exactly when the outcome file or the state file is malformed or they contradict each
      other; then, or when no submit command is given, it submits nothing and leaves the file alone. */
  lemma RefusedRun(rows: seq<Row>, file: File, run: Run)
    ensures Effected(rows, file, run).exit == Aborted <==>
              || !(rows != [] && (forall i :: 0 <= i < |rows| ==> ApprovedRow(rows[i]))
                   && forall i, j :: 0 <= i < j < |rows| ==> rows[i].id != rows[j].id)
              || (file.Some? && !forall i :: 0 <= i < |file.value| ==> StateLine(file.value[i]))
              || !AgreesWith(rows, Loaded(file).value)
    ensures Effected(rows, file, run).exit == Aborted || !run.submits ==>
              Effected(rows, file, run).file == file && Effected(rows, file, run).log == []
  {
    hide ApprovedRow, StateLine, WorkOff, AgreesWith, Conflicts, GoodRow, States;
    RowsMeaning(rows);
    if file.Some? { LinesMeaning(file.value); }
    if GoodRows(rows) && Loaded(file).Ok? {
      LoadedFacts(file);
      ConflictsMeaning(rows, Loaded(file).value);
      WorkOffNeverAborts(Pending(OutcomesOf(rows), Loaded(file).value), Loaded(file).value, file, run);
    }
  }

  lemma WorkOffNeverAborts(pending: seq<Outcome>, state: State, file: File, run: Run)
    ensures WorkOff(pending, state, file, run).exit != Aborted
  {
  }

  /** The pending rows are those without a record, in the order of the outcome file. */
  lemma {:induction false} PendingInOrder(a: seq<Outcome>, b: seq<Outcome>, state: State)
    ensures Pending(a + b, state) == Pending(a, state) + Pending(b, state)
  {
    if b == [] {
      assert a + b == a;
    } else {
      var n := |b| - 1;
      PendingInOrder(a, b[..n], state);
      var front := a + b[..n];
      assert a + b == front + [b[n]];
      assert (front + [b[n]])[..|front|] == front;
    }
  }

  /** The submit command for the escrow exited with code 0 and printed something. */
  predicate CommandSucceeded(run: Run, id: EscrowId) { id in run.replies && Delivered(run.replies[id]) }

  /** An outcome is recorded only if its own command exited with code 0, with the last line it printed,
      stripped of quotes. */
  lemma RecordsAreSuccesses(rows: seq<Row>, file: File, run: Run)
    requires Works(rows, file, run)
    ensures forall o, tx :: Recorded(o, tx) in Effected(rows, file, run).log ==>
              && o in OutcomesOf(rows) && o.id !in Loaded(file).value && CommandSucceeded(run, o.id)
              && Stripped(run.replies[o.id].lines[|run.replies[o.id].lines| - 1], tx)
  {
    hide Loaded, GoodRow, Conflicts, Effected, WorkOff, Stripped, CommandSucceeded, ReplyTo;
    RunStarts(rows, file, run);
    var outcomes, state := OutcomesOf(rows), Loaded(file).value;
    var pending := Pending(outcomes, state);
    var m := Completed(|pending|, run.death);
    PendingFacts(outcomes, state);
    DoneIsReady(pending, state, file, m);
    WorkLog(pending, state, file, run);
    RepliesMeaning(run);
  }

  /** A pending row whose command failed is submitted at most: neither the log nor the file records it, and
      the run does not report success. */
  lemma FailuresStayPending(rows: seq<Row>, file: File, run: Run, o: Outcome)
    requires Works(rows, file, run)
    requires o in OutcomesOf(rows) && o.id !in Loaded(file).value && !CommandSucceeded(run, o.id)
    ensures var e := Effected(rows, file, run);
            && (forall tx :: Recorded(o, tx) !in e.log)
            && (Loaded(e.file).Ok? ==> o.id !in Loaded(e.file).value)
            && e.exit != Code(0)
  {
    hide Loaded, GoodRow, Conflicts, Effected, LogOf, FileAfter, Worked, HashesPresent, Extends, CommandSucceeded, Accounts,
         ReplyTo, AllSucceed;
    RecordsAreSuccesses(rows, file, run);
    RunStarts(rows, file, run);
    var outcomes, state := OutcomesOf(rows), Loaded(file).value;
    var pending := Pending(outcomes, state);
    var m := Completed(|pending|, run.death);
    PendingFacts(outcomes, state);
    WorkFile(pending, state, file, run);
    RepliesMeaning(run);
    FailedRow(pending, m, state, run, o);
  }

  /** A working run that does not die submits every pending row, records each whose command succeeded, and
      exits 0 if all did and 1 otherwise. */
  lemma CompleteRun(rows: seq<Row>, file: File, run: Run)
    requires Works(rows, file, run) && Effected(rows, file, run).exit != Died
    ensures var e, state := Effected(rows, file, run), Loaded(file).value;
            && e.exit == Code(if forall o :: o in OutcomesOf(rows) && o.id !in state ==> CommandSucceeded(run, o.id) then 0 else 1)
            && forall o :: o in OutcomesOf(rows) && o.id !in state ==>
                 && Submitted(o) in e.log
                 && (CommandSucceeded(run, o.id) ==> exists tx :: Recorded(o, tx) in e.log)
  {
    hide Loaded, GoodRow, Conflicts, Effected, LogOf, FileAfter, CommandSucceeded, ReplyTo;
    RunStarts(rows, file, run);
    var outcomes, state, e := OutcomesOf(rows), Loaded(file).value, Effected(rows, file, run);
    var pending := Pending(outcomes, state);
    PendingFacts(outcomes, state);
    RepliesMeaning(run);
    assert pending[..Completed(|pending|, run.death)] == pending;
    assert forall i :: 0 <= i < |pending| ==> pending[i] in pending;
    LogFacts(pending, run);
    forall o | o in pending && CommandSucceeded(run, o.id) ensures exists tx :: Recorded(o, tx) in e.log {
      assert Settles(pending, run, o, ReplyTo(run, o).value);
      assert Recorded(o, ReplyTo(run, o).value) in e.log;
    }
  }

  /** Every outcome of the file is on record already or its command succeeds in this run. */
  predicate OutcomesSettled(rows: seq<Row>, file: File, run: Run) {
    && GoodRows(rows) && Loaded(file).Ok?
    && forall o :: o in OutcomesOf(rows) ==> o.id in Loaded(file).value || CommandSucceeded(run, o.id)
  }

  lemma RunIsHonest(rows: seq<Row>, file: File, run: Run)
    ensures forall o, tx :: Recorded(o, tx) in Effected(rows, file, run).log ==>
              CommandSucceeded(run, o.id) && Stripped(run.replies[o.id].lines[|run.replies[o.id].lines| - 1], tx)
    ensures Effected(rows, file, run).exit == Code(0) && run.submits ==> OutcomesSettled(rows, file, run)
  {
    hide Loaded, GoodRow, Conflicts, WorkOff, CommandSucceeded, Stripped;
    RunStarts(rows, file, run);
    if Works(rows, file, run) {
      RecordsAreSuccesses(rows, file, run);
      if Effected(rows, file, run).exit != Died { CompleteRun(rows, file, run); }
    }
  }

  lemma RepliesMeaning(run: Run)
    ensures forall o: Outcome :: ReplyTo(run, o).Some? <==> CommandSucceeded(run, o.id)
    ensures forall o: Outcome :: ReplyTo(run, o).Some? ==>
              Stripped(run.replies[o.id].lines[|run.replies[o.id].lines| - 1], ReplyTo(run, o).value)
  {
    hide Stripped, Submit;
    forall o: Outcome
      ensures ReplyTo(run, o).Some? <==> CommandSucceeded(run, o.id)
      ensures ReplyTo(run, o).Some? ==> Stripped(run.replies[o.id].lines[|run.replies[o.id].lines| - 1], ReplyTo(run, o).value)
    {
      if o.id in run.replies { SubmitMeaning(run.replies[o.id]); }
    }
  }

  lemma FailedRow(pending: seq<Outcome>, m: nat, state: State, run: Run, o: Outcome)
    requires o in pending && o.id !in state && DistinctIds(pending) && m <= |pending| && ReplyTo(run, o).None?
    ensures o.id !in Worked(state, pending[..m], run) && !AllSucceed(pending, run)
  {
    hide ReplyTo, Record, Worked;
    var done := pending[..m];
    assert DistinctIds(done);
    WorkedAccounts(state, done, run);
    var j :| 0 <= j < |pending| && pending[j] == o;
    forall i | 0 <= i < m && done[i].id == o.id ensures done[i] == o {
      assert pending[i].id == pending[j].id;
    }
  }
}
