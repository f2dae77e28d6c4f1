// The Go client's codec between escrow records and Soroban values.
module ScVal {
  import opened Prelude
  import Amounts

  const TWO63: int := 0x8000_0000_0000_0000
  const TWO64: int := 0x1_0000_0000_0000_0000
  const TWO127: int := 0x8000_0000_0000_0000_0000_0000_0000_0000
  const TWO128: int := 0x1_0000_0000_0000_0000_0000_0000_0000_0000

  type Int64 = x: int | -TWO63 <= x < TWO63
  type UInt64 = x: int | 0 <= x < TWO64
  type UInt32 = x: int | 0 <= x < 0x1_0000_0000

  /** The two halves of an i128: signed high, unsigned low. */
  datatype Parts = Parts(hi: Int64, lo: UInt64)

  /** `Exotic` is an address kind whose text neither starts with G nor C. */
  datatype ScAddress = Account(id: nat) | Contract(id: nat) | Exotic(text: string)

  /** Address texts; `Unparsable` covers everything the encoder refuses. */
  datatype AddressText = G(id: nat) | C(id: nat) | Unparsable(text: string)

  /** `Vec` and `Map` may hold no list at all; `Other` is any value of a kind the codec never reads. */
  datatype ScVal =
    | Void
    | Bool(b: bool)
    | U32(u32: UInt32)
    | U64(u64: UInt64)
    | I128(parts: Parts)
    | Str(text: string)
    | Sym(name: string)
    | Addr(address: ScAddress)
    | Vec(items: Option<seq<ScVal>>)
    | Map(entries: Option<seq<Entry>>)
    | Other(kind: string)

  datatype Entry = Entry(key: ScVal, val: ScVal)

  datatype CodecError =
    | InvalidArgument
    | Mistyped(expected: string)
    | NonSymbolKey
    | MissingField(name: string)
    | MalformedStatus
    | UnknownStatus(variant: string)

  datatype Result<+T> = Ok(value: T) | Err(error: CodecError)
  {
    predicate IsFailure() { Err? }
    function PropagateFailure<U>(): Result<U>
      requires IsFailure()
    {
      Err(error)
    }
    function Extract(): T
      requires Ok?
    {
      value
    }
  }

  /** The Go record. `amount` is a pointer, so it may be absent; `status` is any 32-bit number. */
  datatype Escrow = Escrow(
    payer: AddressText,
    payee: AddressText,
    token: AddressText,
    amount: Option<int>,
    conditionRef: string,
    releasers: seq<AddressText>,
    threshold: UInt32,
    refundAfter: Option<UInt64>,
    refundTo: Option<AddressText>,
    releaseNotBefore: Option<UInt64>,
    notifyPayee: bool,
    status: UInt32,
    requiresAcceptance: bool,
    acceptedAt: Option<UInt64>)

  // ---- 128-bit integers --------------------------------------------------

  predicate InI128(v: int) { -TWO127 <= v < TWO127 }

  /** The halves of a number: the quotient and remainder of floor division by 2^64. */
  function ToParts(v: int): Parts
    requires InI128(v)
  {
    Parts(v / TWO64, v % TWO64)
  }

  function FromParts(p: Parts): int { p.hi * TWO64 + p.lo }

  /** Go's conversion of a uint64 to an int64. */
  function Signed64(x: UInt64): Int64 { if x >= TWO63 then x - TWO64 else x }

  /** Adding 2^128 to a negative number, shifting, masking and reinterpreting yields the halves. */
  method BigIntToI128(v: Option<int>) returns (r: Result<Parts>)
    ensures v.Some? && InI128(v.value) ==> r == Ok(ToParts(v.value))
    ensures !(v.Some? && InI128(v.value)) ==> r == Err(InvalidArgument)
  {
    if v.None? { return Err(InvalidArgument); }
    if v.value < -TWO127 || v.value > TWO127 - 1 { return Err(InvalidArgument); }
    var unsigned := v.value;
    if v.value < 0 {
      unsigned := unsigned + TWO128;
    }
    var hi := unsigned / TWO64;
    var lo := unsigned % TWO64;
    r := Ok(Parts(Signed64(hi), lo));
  }

  method I128ToBigInt(p: Parts) returns (v: int)
    ensures InI128(v) && ToParts(v) == p
  {
    var hi := p.hi;
    hi := hi * TWO64;
    v := hi + p.lo;
  }

  /** Encoding and decoding are mutually inverse between [-2^127, 2^127) and all pairs of halves. */
  lemma PartsRoundTrip(v: int, p: Parts)
    ensures InI128(v) ==> FromParts(ToParts(v)) == v
    ensures InI128(FromParts(p)) && ToParts(FromParts(p)) == p
  {
  }

  /** The halves are the two's complement bits of the number. */
  lemma PartsAreTwosComplement(v: int)
    requires InI128(v)
    ensures (ToParts(v).hi % TWO64) * TWO64 + ToParts(v).lo == v % TWO128
  {
  }

  // ---- addresses and statuses --------------------------------------------

  function ParseScAddress(t: AddressText): Result<ScAddress> {
    match t
    case G(id) => Ok(Account(id))
    case C(id) => Ok(Contract(id))
    case Unparsable(_) => Err(InvalidArgument)
  }

  function AddressString(a: ScAddress): AddressText {
    match a
    case Account(id) => G(id)
    case Contract(id) => C(id)
    case Exotic(text) => Unparsable(text)
  }

  predicate Parsable(t: AddressText) { !t.Unparsable? }

  function StatusName(s: UInt32): string {
    if s == 0 then "Funded" else if s == 1 then "Released" else if s == 2 then "Refunded"
    else "EscrowStatus(" + Amounts.Decimal(s) + ")"
  }

  function StatusOf(name: string): Result<UInt32> {
    if name == "Funded" then Ok(0) else if name == "Released" then Ok(1) else if name == "Refunded" then Ok(2)
    else Err(UnknownStatus(name))
  }

  /** Funded, Released and Refunded stand for 0, 1 and 2; the codec reads back exactly these three. */
  lemma StatusRoundTrip(s: UInt32)
    ensures StatusName(0) == "Funded" && StatusName(1) == "Released" && StatusName(2) == "Refunded"
    ensures StatusOf("Funded") == Ok(0) && StatusOf("Released") == Ok(1) && StatusOf("Refunded") == Ok(2)
    ensures s <= 2 ==> StatusOf(StatusName(s)) == Ok(s)
    ensures s > 2 ==> StatusOf(StatusName(s)) == Err(UnknownStatus(StatusName(s)))
  {
    if s > 2 {
      assert StatusName(s)[0] == 'E';
      assert "Funded"[0] == 'F' && "Released"[0] == 'R' && "Refunded"[0] == 'R';
    }
  }

  // ---- scalar decoders ---------------------------------------------------

  function DecodeAddress(v: ScVal): Result<AddressText> {
    if v.Addr? then Ok(AddressString(v.address)) else Err(Mistyped("address"))
  }

  function DecodeU32(v: ScVal): Result<UInt32> {
    if v.U32? then Ok(v.u32) else Err(Mistyped("u32"))
  }

  function DecodeOptionU64(v: ScVal): Result<Option<UInt64>> {
    if v.Void? then Ok(None) else if v.U64? then Ok(Some(v.u64)) else Err(Mistyped("u64"))
  }

  function DecodeOptionAddress(v: ScVal): Result<Option<AddressText>> {
    if v.Void? then Ok(None) else if v.Addr? then Ok(Some(AddressString(v.address))) else Err(Mistyped("address"))
  }

  function DecodeString(v: ScVal): Result<string> {
    if v.Str? then Ok(v.text) else Err(Mistyped("string"))
  }

  function DecodeBool(v: ScVal): Result<bool> {
    if v.Bool? then Ok(v.b) else Err(Mistyped("bool"))
  }

  function DecodeI128(v: ScVal): Result<Option<int>> {
    if v.I128? then Ok(Some(FromParts(v.parts))) else Err(Mistyped("i128"))
  }

  function DecodeStatus(v: ScVal): Result<UInt32> {
    if !v.Vec? || v.items.None? then Err(Mistyped("EscrowStatus"))
    else if |v.items.value| != 1 || !v.items.value[0].Sym? then Err(MalformedStatus)
    else StatusOf(v.items.value[0].name)
  }

  function DecodeVec(v: ScVal): Result<seq<ScVal>> {
    if !v.Vec? then Err(Mistyped("vec"))
    else if v.items.None? then Ok([])
    else Ok(v.items.value)
  }

  function OptionU64(v: Option<UInt64>): ScVal { if v.None? then Void else U64(v.value) }

  // ---- maps --------------------------------------------------------------

  type Fields = map<string, ScVal>

  predicate SymbolKeys(entries: seq<Entry>) { forall i :: 0 <= i < |entries| ==> entries[i].key.Sym? }

  /** The fields of a list of entries: for every symbol the last entry with that key. */
  function FieldsOf(entries: seq<Entry>): Fields
    requires SymbolKeys(entries)
  {
    if entries == [] then map[]
    else
      var n := |entries| - 1;
      FieldsOf(entries[..n])[entries[n].key.name := entries[n].val]
  }

  function MapResult(v: ScVal): Result<Fields> {
    if !v.Map? then Err(Mistyped("map"))
    else if v.entries.None? then Ok(map[])
    else if !SymbolKeys(v.entries.value) then Err(NonSymbolKey)
    else Ok(FieldsOf(v.entries.value))
  }

  method DecodeMap(v: ScVal) returns (r: Result<Fields>)
    ensures r == MapResult(v)
  {
    if !v.Map? { return Err(Mistyped("map")); }
    var fields: Fields := map[];
    if v.entries.None? { return Ok(fields); }
    var entries := v.entries.value;
    for i := 0 to |entries|
      invariant SymbolKeys(entries[..i]) && fields == FieldsOf(entries[..i])
    {
      if !entries[i].key.Sym? { return Err(NonSymbolKey); }
      fields := fields[entries[i].key.name := entries[i].val];
      assert entries[..i + 1][..i] == entries[..i];
    }
    assert entries[..|entries|] == entries;
    r := Ok(fields);
  }

  predicate LastWithKey(entries: seq<Entry>, i: nat)
    requires SymbolKeys(entries)
  {
    i < |entries| && forall j :: i < j < |entries| ==> entries[j].key.name != entries[i].key.name
  }

  /** A later duplicate key hides the earlier ones, and nothing else is read. */
  lemma {:induction false} LastKeyWins(entries: seq<Entry>, name: string)
    requires SymbolKeys(entries)
    ensures name in FieldsOf(entries) ==>
              exists i: nat :: LastWithKey(entries, i) && entries[i] == Entry(Sym(name), FieldsOf(entries)[name])
    ensures name !in FieldsOf(entries) ==> forall i :: 0 <= i < |entries| ==> entries[i].key.name != name
  {
    if entries != [] {
      var n := |entries| - 1;
      var front := entries[..n];
      LastKeyWins(front, name);
      if entries[n].key.name == name {
        assert LastWithKey(entries, n);
      } else if name in FieldsOf(front) {
        var i: nat :| LastWithKey(front, i) && front[i] == Entry(Sym(name), FieldsOf(front)[name]);
        assert LastWithKey(entries, i);
      }
    }
  }

  lemma {:induction false} FieldAt(entries: seq<Entry>, i: nat)
    requires SymbolKeys(entries) && LastWithKey(entries, i)
    ensures entries[i].key.name in FieldsOf(entries)
    ensures FieldsOf(entries)[entries[i].key.name] == entries[i].val
  {
    var n := |entries| - 1;
    if i < n {
      assert LastWithKey(entries[..n], i);
      FieldAt(entries[..n], i);
    }
  }

  predicate DistinctKeys(entries: seq<Entry>)
    requires SymbolKeys(entries)
  {
    forall i, j :: 0 <= i < j < |entries| ==> entries[i].key.name != entries[j].key.name
  }

  /** Without duplicate keys the order of the entries does not matter to any reader. */
  lemma EntryOrderIrrelevant(a: seq<Entry>, b: seq<Entry>)
    requires SymbolKeys(a) && SymbolKeys(b) && DistinctKeys(a) && DistinctKeys(b)
    requires forall e :: e in a <==> e in b
    ensures MapResult(Map(Some(a))) == MapResult(Map(Some(b)))
  {
    forall name
      ensures name in FieldsOf(a) <==> name in FieldsOf(b)
      ensures name in FieldsOf(a) && name in FieldsOf(b) ==> FieldsOf(a)[name] == FieldsOf(b)[name]
    {
      SameField(a, b, name);
      SameField(b, a, name);
    }
    assert FieldsOf(a) == FieldsOf(b);
  }

  lemma SameField(a: seq<Entry>, b: seq<Entry>, name: string)
    requires SymbolKeys(a) && SymbolKeys(b) && DistinctKeys(b)
    requires forall e :: e in a ==> e in b
    ensures name in FieldsOf(a) ==> name in FieldsOf(b) && FieldsOf(b)[name] == FieldsOf(a)[name]
  {
    hide FieldsOf;
    LastKeyWins(a, name);
    if name in FieldsOf(a) {
      var i: nat :| LastWithKey(a, i) && a[i] == Entry(Sym(name), FieldsOf(a)[name]);
      assert a[i] in b;
      var j :| 0 <= j < |b| && b[j] == a[i];
      assert LastWithKey(b, j);
      FieldAt(b, j);
    }
  }

  // ---- decoding a record -------------------------------------------------

  datatype Kind = AddressKind | I128Kind | StringKind | StatusKind | U32Kind | OptionU64Kind
                | OptionAddressKind | BoolKind | AddressesKind

  datatype FieldSpec = FieldSpec(name: string, kind: Kind, required: bool)

  const FIELDS: nat := 14

  /** The record's fields in the order they are read. */
  function Layout(n: nat): FieldSpec
    requires n < FIELDS
  {
    match n
    case 0 => FieldSpec("payer", AddressKind, true)
    case 1 => FieldSpec("payee", AddressKind, true)
    case 2 => FieldSpec("token", AddressKind, true)
    case 3 => FieldSpec("amount", I128Kind, true)
    case 4 => FieldSpec("condition_ref", StringKind, true)
    case 5 => FieldSpec("status", StatusKind, true)
    case 6 => FieldSpec("threshold", U32Kind, true)
    case 7 => FieldSpec("refund_after", OptionU64Kind, true)
    case 8 => FieldSpec("refund_to", OptionAddressKind, false)
    case 9 => FieldSpec("release_not_before", OptionU64Kind, false)
    case 10 => FieldSpec("notify_payee", BoolKind, true)
    case 11 => FieldSpec("releasers", AddressesKind, true)
    case 12 => FieldSpec("requires_acceptance", BoolKind, false)
    case _ => FieldSpec("accepted_at", OptionU64Kind, false)
  }

  function ErrorOf<T>(r: Result<T>): Option<CodecError> { if r.Err? then Some(r.error) else None }

  /** The error a value of the given kind is refused with, if any. */
  function Misread(kind: Kind, v: ScVal): Option<CodecError> {
    match kind
    case AddressKind => ErrorOf(DecodeAddress(v))
    case I128Kind => ErrorOf(DecodeI128(v))
    case StringKind => ErrorOf(DecodeString(v))
    case StatusKind => ErrorOf(DecodeStatus(v))
    case U32Kind => ErrorOf(DecodeU32(v))
    case OptionU64Kind => ErrorOf(DecodeOptionU64(v))
    case OptionAddressKind => ErrorOf(DecodeOptionAddress(v))
    case BoolKind => ErrorOf(DecodeBool(v))
    case AddressesKind =>
      if !v.Vec? then Some(Mistyped("vec"))
      else if v.items.Some? && !(forall i :: 0 <= i < |v.items.value| ==> v.items.value[i].Addr?)
      then Some(Mistyped("address"))
      else None
  }

  /** What is wrong with one field: absent though required, or of another kind. */
  function Fault(fields: Fields, f: FieldSpec): Option<CodecError> {
    if f.name in fields then Misread(f.kind, fields[f.name])
    else if f.required then Some(MissingField(f.name))
    else None
  }

  /** Decoding stops at the first field, in reading order, that is wrong. */
  function FirstFault(fields: Fields, n: nat): Option<CodecError>
    requires n <= FIELDS
    decreases FIELDS - n
  {
    if n == FIELDS then None
    else if Fault(fields, Layout(n)).Some? then Fault(fields, Layout(n))
    else FirstFault(fields, n + 1)
  }

  /** `e` is what the fields say; an absent optional field reads as its default. */
  predicate Describes(fields: Fields, e: Escrow) {
    DescribesParties(fields, e) && DescribesTerms(fields, e) && DescribesRest(fields, e)
  }

  predicate DescribesParties(fields: Fields, e: Escrow) {
    && "payer" in fields && DecodeAddress(fields["payer"]) == Ok(e.payer)
    && "payee" in fields && DecodeAddress(fields["payee"]) == Ok(e.payee)
    && "token" in fields && DecodeAddress(fields["token"]) == Ok(e.token)
    && "amount" in fields && DecodeI128(fields["amount"]) == Ok(e.amount)
    && "condition_ref" in fields && DecodeString(fields["condition_ref"]) == Ok(e.conditionRef)
  }

  predicate DescribesTerms(fields: Fields, e: Escrow) {
    && "status" in fields && DecodeStatus(fields["status"]) == Ok(e.status)
    && "threshold" in fields && DecodeU32(fields["threshold"]) == Ok(e.threshold)
    && "refund_after" in fields && DecodeOptionU64(fields["refund_after"]) == Ok(e.refundAfter)
    && (if "refund_to" in fields then DecodeOptionAddress(fields["refund_to"]) == Ok(e.refundTo) else e.refundTo == None)
    && (if "release_not_before" in fields then DecodeOptionU64(fields["release_not_before"]) == Ok(e.releaseNotBefore) else e.releaseNotBefore == None)
  }

  predicate DescribesRest(fields: Fields, e: Escrow) {
    && "notify_payee" in fields && DecodeBool(fields["notify_payee"]) == Ok(e.notifyPayee)
    && "releasers" in fields && Releasers(fields["releasers"], e.releasers)
    && (if "requires_acceptance" in fields then DecodeBool(fields["requires_acceptance"]) == Ok(e.requiresAcceptance) else !e.requiresAcceptance)
    && (if "accepted_at" in fields then DecodeOptionU64(fields["accepted_at"]) == Ok(e.acceptedAt) else e.acceptedAt == None)
  }

  predicate Releasers(v: ScVal, texts: seq<AddressText>) {
    && DecodeVec(v).Ok? && |texts| == |DecodeVec(v).value|
    && forall i :: 0 <= i < |texts| ==> DecodeAddress(DecodeVec(v).value[i]) == Ok(texts[i])
  }

  /** At most one record fits the fields. */
  lemma DescribesOne(fields: Fields, a: Escrow, b: Escrow)
    requires Describes(fields, a) && Describes(fields, b)
    ensures a == b
  {
    assert forall i :: 0 <= i < |a.releasers| ==> Ok(a.releasers[i]) == Ok(b.releasers[i]);
    assert a.releasers == b.releasers;
  }

  /** Decoding yields the one record the value describes, or the first fault. */
  predicate DecodesTo(v: ScVal, r: Result<Escrow>) {
    match MapResult(v)
    case Err(e) => r == Err(e)
    case Ok(fields) =>
      match r
      case Ok(e) => Describes(fields, e)
      case Err(e) => FirstFault(fields, 0) == Some(e)
  }

  method DecodeReleasers(v: ScVal) returns (r: Result<seq<AddressText>>)
    ensures ErrorOf(r) == Misread(AddressesKind, v)
    ensures r.Ok? ==> Releasers(v, r.value)
  {
    var vals := DecodeVec(v);
    if vals.Err? { return Err(vals.error); }
    var releasers := [];
    for i := 0 to |vals.value|
      invariant |releasers| == i
      invariant forall k :: 0 <= k < i ==> DecodeAddress(vals.value[k]) == Ok(releasers[k])
    {
      var releaser := DecodeAddress(vals.value[i]);
      if releaser.Err? { return Err(releaser.error); }
      releasers := releasers + [releaser.value];
    }
    r := Ok(releasers);
  }

  function Required(fields: Fields, name: string): Result<ScVal> {
    if name in fields then Ok(fields[name]) else Err(MissingField(name))
  }

  function Stop(fields: Fields, f: FieldSpec, rest: Option<CodecError>): Option<CodecError> {
    if Fault(fields, f).Some? then Fault(fields, f) else rest
  }

  /** The reading order, field by field. */
  lemma ReadingOrder(fields: Fields)
    ensures FirstFault(fields, 0) == Stop(fields, FieldSpec("payer", AddressKind, true), FirstFault(fields, 1))
    ensures FirstFault(fields, 1) == Stop(fields, FieldSpec("payee", AddressKind, true), FirstFault(fields, 2))
    ensures FirstFault(fields, 2) == Stop(fields, FieldSpec("token", AddressKind, true), FirstFault(fields, 3))
    ensures FirstFault(fields, 3) == Stop(fields, FieldSpec("amount", I128Kind, true), FirstFault(fields, 4))
    ensures FirstFault(fields, 4) == Stop(fields, FieldSpec("condition_ref", StringKind, true), FirstFault(fields, 5))
    ensures FirstFault(fields, 5) == Stop(fields, FieldSpec("status", StatusKind, true), FirstFault(fields, 6))
    ensures FirstFault(fields, 6) == Stop(fields, FieldSpec("threshold", U32Kind, true), FirstFault(fields, 7))
    ensures FirstFault(fields, 7) == Stop(fields, FieldSpec("refund_after", OptionU64Kind, true), FirstFault(fields, 8))
    ensures FirstFault(fields, 8) == Stop(fields, FieldSpec("refund_to", OptionAddressKind, false), FirstFault(fields, 9))
    ensures FirstFault(fields, 9) == Stop(fields, FieldSpec("release_not_before", OptionU64Kind, false), FirstFault(fields, 10))
    ensures FirstFault(fields, 10) == Stop(fields, FieldSpec("notify_payee", BoolKind, true), FirstFault(fields, 11))
    ensures FirstFault(fields, 11) == Stop(fields, FieldSpec("releasers", AddressesKind, true), FirstFault(fields, 12))
    ensures FirstFault(fields, 12) == Stop(fields, FieldSpec("requires_acceptance", BoolKind, false), FirstFault(fields, 13))
    ensures FirstFault(fields, 13) == Stop(fields, FieldSpec("accepted_at", OptionU64Kind, false), FirstFault(fields, 14))
    ensures FirstFault(fields, FIELDS) == None
  {
    hide Fault;
  }

  /** A described record has no fault, so decoding has exactly one outcome. */
  lemma DescribedIsFaultless(fields: Fields, e: Escrow)
    requires Describes(fields, e)
    ensures FirstFault(fields, 0) == None
  {
    hide FieldsOf, DecodeAddress, DecodeI128, DecodeString, DecodeStatus, DecodeU32, DecodeBool,
         DecodeOptionU64, DecodeOptionAddress, FirstFault, Releasers;
    ReadingOrder(fields);
    ReleasersFaultless(fields["releasers"], e.releasers);
  }

  lemma ReleasersFaultless(v: ScVal, texts: seq<AddressText>)
    requires Releasers(v, texts)
    ensures Misread(AddressesKind, v) == None
  {
    if v.items.Some? {
      forall i | 0 <= i < |v.items.value| ensures v.items.value[i].Addr? {
        assert DecodeAddress(v.items.value[i]) == Ok(texts[i]);
      }
    }
  }

  lemma DecodingIsDeterminate(v: ScVal, r: Result<Escrow>, q: Result<Escrow>)
    requires DecodesTo(v, r) && DecodesTo(v, q)
    ensures r == q
  {
    hide Describes, FirstFault;
    if MapResult(v).Ok? {
      var fields := MapResult(v).value;
      if r.Ok? { DescribedIsFaultless(fields, r.value); }
      if q.Ok? { DescribedIsFaultless(fields, q.value); }
      if r.Ok? && q.Ok? { DescribesOne(fields, r.value, q.value); }
    }
  }

  method DecodeParties(fields: Fields, start: Escrow) returns (r: Result<Escrow>)
    ensures FirstFault(fields, 0) == if r.Err? then Some(r.error) else FirstFault(fields, 5)
    ensures r.Ok? ==> DescribesParties(fields, r.value)
    ensures r.Ok? ==> r.value == start.(payer := r.value.payer, payee := r.value.payee, token := r.value.token,
      amount := r.value.amount, conditionRef := r.value.conditionRef)
  {
    hide FieldsOf, DecodeAddress, DecodeI128, DecodeString, DecodeStatus, DecodeU32, DecodeBool,
         DecodeOptionU64, DecodeOptionAddress, Releasers, FirstFault;
    ReadingOrder(fields);
    var e := start;
    var payerVal :- Required(fields, "payer");
    var payer :- DecodeAddress(payerVal);
    e := e.(payer := payer);
    var payeeVal :- Required(fields, "payee");
    var payee :- DecodeAddress(payeeVal);
    e := e.(payee := payee);
    var tokenVal :- Required(fields, "token");
    var token :- DecodeAddress(tokenVal);
    e := e.(token := token);
    var amountVal :- Required(fields, "amount");
    var amount :- DecodeI128(amountVal);
    e := e.(amount := amount);
    var conditionRefVal :- Required(fields, "condition_ref");
    var conditionRef :- DecodeString(conditionRefVal);
    e := e.(conditionRef := conditionRef);
    r := Ok(e);
  }

  method DecodeTerms(fields: Fields, start: Escrow) returns (r: Result<Escrow>)
    requires start.refundTo == None && start.releaseNotBefore == None
    ensures FirstFault(fields, 5) == if r.Err? then Some(r.error) else FirstFault(fields, 10)
    ensures r.Ok? ==> DescribesTerms(fields, r.value)
    ensures r.Ok? ==> r.value == start.(status := r.value.status, threshold := r.value.threshold,
      refundAfter := r.value.refundAfter, refundTo := r.value.refundTo, releaseNotBefore := r.value.releaseNotBefore)
  {
    hide FieldsOf, DecodeAddress, DecodeI128, DecodeString, DecodeStatus, DecodeU32, DecodeBool,
         DecodeOptionU64, DecodeOptionAddress, Releasers, FirstFault;
    ReadingOrder(fields);
    var e := start;
    var statusVal :- Required(fields, "status");
    var status :- DecodeStatus(statusVal);
    e := e.(status := status);
    var thresholdVal :- Required(fields, "threshold");
    var threshold :- DecodeU32(thresholdVal);
    e := e.(threshold := threshold);
    var refundAfterVal :- Required(fields, "refund_after");
    var refundAfter :- DecodeOptionU64(refundAfterVal);
    e := e.(refundAfter := refundAfter);
    if "refund_to" in fields {
      var refundTo :- DecodeOptionAddress(fields["refund_to"]);
      e := e.(refundTo := refundTo);
    }
    if "release_not_before" in fields {
      var releaseNotBefore :- DecodeOptionU64(fields["release_not_before"]);
      e := e.(releaseNotBefore := releaseNotBefore);
    }
    r := Ok(e);
  }

  method DecodeRest(fields: Fields, start: Escrow) returns (r: Result<Escrow>)
    requires start.acceptedAt == None && !start.requiresAcceptance
    ensures FirstFault(fields, 10) == if r.Err? then Some(r.error) else None
    ensures r.Ok? ==> DescribesRest(fields, r.value)
    ensures r.Ok? ==> r.value == start.(notifyPayee := r.value.notifyPayee, releasers := r.value.releasers,
      requiresAcceptance := r.value.requiresAcceptance, acceptedAt := r.value.acceptedAt)
  {
    hide FieldsOf, DecodeAddress, DecodeI128, DecodeString, DecodeStatus, DecodeU32, DecodeBool,
         DecodeOptionU64, DecodeOptionAddress, Releasers, FirstFault;
    ReadingOrder(fields);
    var e := start;
    var notifyPayeeVal :- Required(fields, "notify_payee");
    var notifyPayee :- DecodeBool(notifyPayeeVal);
    e := e.(notifyPayee := notifyPayee);
    var releasersVal :- Required(fields, "releasers");
    var releasers :- DecodeReleasers(releasersVal);
    e := e.(releasers := releasers);
    if "requires_acceptance" in fields {
      var requiresAcceptance :- DecodeBool(fields["requires_acceptance"]);
      e := e.(requiresAcceptance := requiresAcceptance);
    }
    if "accepted_at" in fields {
      var acceptedAt :- DecodeOptionU64(fields["accepted_at"]);
      e := e.(acceptedAt := acceptedAt);
    }
    r := Ok(e);
  }

  /** The record read field by field, in the order of `Layout`. */
  method DecodeEscrow(v: ScVal) returns (r: Result<Escrow>)
    ensures DecodesTo(v, r)
  {
    hide MapResult, FirstFault;
    var fields :- DecodeMap(v);
    var e := Escrow(Unparsable(""), Unparsable(""), Unparsable(""), None, "", [], 0, None, None, None, false, 0, false, None);
    e :- DecodeParties(fields, e);
    e :- DecodeTerms(fields, e);
    e :- DecodeRest(fields, e);
    r := Ok(e);
  }

  // ---- encoding a record -------------------------------------------------

  /** What the encoder accepts: an amount in range and nothing but G and C addresses. */
  predicate Encodable(e: Escrow) {
    && e.amount.Some? && InI128(e.amount.value)
    && Parsable(e.payer) && Parsable(e.payee) && Parsable(e.token)
    && (e.refundTo.Some? ==> Parsable(e.refundTo.value))
    && forall i :: 0 <= i < |e.releasers| ==> Parsable(e.releasers[i])
  }

  function AddressVal(t: AddressText): ScVal
    requires Parsable(t)
  {
    Addr(ParseScAddress(t).value)
  }

  function AddressVals(ts: seq<AddressText>): seq<ScVal>
    requires forall i :: 0 <= i < |ts| ==> Parsable(ts[i])
  {
    seq(|ts|, i requires 0 <= i < |ts| => AddressVal(ts[i]))
  }

  function Entries(e: Escrow): seq<Entry>
    requires Encodable(e)
  {
    [ Entry(Sym("payer"), AddressVal(e.payer)),
      Entry(Sym("payee"), AddressVal(e.payee)),
      Entry(Sym("token"), AddressVal(e.token)),
      Entry(Sym("amount"), I128(ToParts(e.amount.value))),
      Entry(Sym("condition_ref"), Str(e.conditionRef)),
      Entry(Sym("status"), Vec(Some([Sym(StatusName(e.status))]))),
      Entry(Sym("releasers"), Vec(Some(AddressVals(e.releasers)))),
      Entry(Sym("threshold"), U32(e.threshold)),
      Entry(Sym("refund_after"), OptionU64(e.refundAfter)),
      Entry(Sym("refund_to"), if e.refundTo.None? then Void else AddressVal(e.refundTo.value)),
      Entry(Sym("release_not_before"), OptionU64(e.releaseNotBefore)),
      Entry(Sym("notify_payee"), Bool(e.notifyPayee)),
      Entry(Sym("requires_acceptance"), Bool(e.requiresAcceptance)),
      Entry(Sym("accepted_at"), OptionU64(e.acceptedAt)) ]
  }

  lemma EntriesDistinct(e: Escrow)
    requires Encodable(e)
    ensures |Entries(e)| == 14 && SymbolKeys(Entries(e)) && DistinctKeys(Entries(e))
  {
    hide AddressVal, AddressVals, ToParts, StatusName, OptionU64, Encodable;
  }

  method EncodeEscrow(e: Escrow) returns (r: Result<ScVal>)
    ensures r == if Encodable(e) then Ok(Map(Some(Entries(e)))) else Err(InvalidArgument)
  {
    var amount :- BigIntToI128(e.amount);
    var releasers := [];
    for i := 0 to |e.releasers|
      invariant forall k :: 0 <= k < i ==> Parsable(e.releasers[k])
      invariant releasers == AddressVals(e.releasers[..i])
    {
      var address :- ParseScAddress(e.releasers[i]);
      releasers := releasers + [Addr(address)];
    }
    assert e.releasers[..|e.releasers|] == e.releasers;
    var payer :- ParseScAddress(e.payer);
    var payee :- ParseScAddress(e.payee);
    var token :- ParseScAddress(e.token);
    var refundTo := Void;
    if e.refundTo.Some? {
      var address :- ParseScAddress(e.refundTo.value);
      refundTo := Addr(address);
    }
    r := Ok(Map(Some([
      Entry(Sym("payer"), Addr(payer)),
      Entry(Sym("payee"), Addr(payee)),
      Entry(Sym("token"), Addr(token)),
      Entry(Sym("amount"), I128(amount)),
      Entry(Sym("condition_ref"), Str(e.conditionRef)),
      Entry(Sym("status"), Vec(Some([Sym(StatusName(e.status))]))),
      Entry(Sym("releasers"), Vec(Some(releasers))),
      Entry(Sym("threshold"), U32(e.threshold)),
      Entry(Sym("refund_after"), OptionU64(e.refundAfter)),
      Entry(Sym("refund_to"), refundTo),
      Entry(Sym("release_not_before"), OptionU64(e.releaseNotBefore)),
      Entry(Sym("notify_payee"), Bool(e.notifyPayee)),
      Entry(Sym("requires_acceptance"), Bool(e.requiresAcceptance)),
      Entry(Sym("accepted_at"), OptionU64(e.acceptedAt)) ])));
  }

  /** The fields added after the first layout, which older deployments do not write. */
  const LATER_FIELDS: set<string> := {"refund_to", "release_not_before", "requires_acceptance", "accepted_at"}

  /** The fields hold the record's entries, some later ones possibly missing and any others added. */
  predicate Carries(fields: Fields, e: Escrow)
    requires Encodable(e)
  {
    forall i :: 0 <= i < |Entries(e)| ==> CarriesEntry(fields, Entries(e)[i])
  }

  predicate CarriesEntry(fields: Fields, entry: Entry) {
    entry.key.Sym? &&
    if entry.key.name in fields then fields[entry.key.name] == entry.val else entry.key.name in LATER_FIELDS
  }

  function WithDefaults(fields: Fields, e: Escrow): Escrow {
    e.(refundTo := if "refund_to" in fields then e.refundTo else None,
       releaseNotBefore := if "release_not_before" in fields then e.releaseNotBefore else None,
       requiresAcceptance := "requires_acceptance" in fields && e.requiresAcceptance,
       acceptedAt := if "accepted_at" in fields then e.acceptedAt else None)
  }

  /** G texts are accounts and C texts are contracts, both ways. */
  lemma AddressKinds(id: nat)
    ensures ParseScAddress(G(id)) == Ok(Account(id)) && ParseScAddress(C(id)) == Ok(Contract(id))
    ensures AddressString(Account(id)) == G(id) && AddressString(Contract(id)) == C(id)
  {
  }

  lemma AddressRoundTrip(t: AddressText)
    requires Parsable(t)
    ensures DecodeAddress(AddressVal(t)) == Ok(t) && DecodeOptionAddress(AddressVal(t)) == Ok(Some(t))
  {
  }

  lemma OptionRoundTrip(v: Option<UInt64>)
    ensures DecodeOptionU64(OptionU64(v)) == Ok(v)
  {
  }

  lemma ReleasersRoundTrip(ts: seq<AddressText>)
    requires forall i :: 0 <= i < |ts| ==> Parsable(ts[i])
    ensures Releasers(Vec(Some(AddressVals(ts))), ts)
  {
  }

  lemma PartiesCarried(fields: Fields, e: Escrow)
    requires Encodable(e) && Carries(fields, e)
    ensures DescribesParties(fields, e)
  {
    hide AddressVal, AddressVals, ToParts, StatusName, OptionU64, DecodeAddress;
    var s := Entries(e);
    assert CarriesEntry(fields, s[0]) && CarriesEntry(fields, s[1]) && CarriesEntry(fields, s[2]);
    assert CarriesEntry(fields, s[3]) && CarriesEntry(fields, s[4]);
    AddressRoundTrip(e.payer);
    AddressRoundTrip(e.payee);
    AddressRoundTrip(e.token);
    PartsRoundTrip(e.amount.value, Parts(0, 0));
  }

  lemma TermsCarried(fields: Fields, e: Escrow)
    requires Encodable(e) && Carries(fields, e)
    ensures "status" in fields && DecodeStatus(fields["status"]) == StatusOf(StatusName(e.status))
    ensures e.status <= 2 ==> DescribesTerms(fields, WithDefaults(fields, e))
  {
    hide AddressVal, AddressVals, ToParts, StatusName, OptionU64, StatusOf, DecodeOptionU64, DecodeOptionAddress;
    var s := Entries(e);
    assert CarriesEntry(fields, s[5]) && CarriesEntry(fields, s[7]) && CarriesEntry(fields, s[8]);
    assert CarriesEntry(fields, s[9]) && CarriesEntry(fields, s[10]);
    StatusRoundTrip(e.status);
    OptionRoundTrip(e.refundAfter);
    OptionRoundTrip(e.releaseNotBefore);
    if e.refundTo.Some? { AddressRoundTrip(e.refundTo.value); } else { VoidOption(); }
  }

  lemma VoidOption()
    ensures DecodeOptionAddress(Void) == Ok(None)
  {
  }

  lemma RestCarried(fields: Fields, e: Escrow)
    requires Encodable(e) && Carries(fields, e)
    ensures DescribesRest(fields, WithDefaults(fields, e))
  {
    hide AddressVal, AddressVals, ToParts, StatusName, OptionU64, DecodeOptionU64, Releasers;
    var s := Entries(e);
    assert CarriesEntry(fields, s[6]) && CarriesEntry(fields, s[11]) && CarriesEntry(fields, s[12]);
    assert CarriesEntry(fields, s[13]);
    ReleasersRoundTrip(e.releasers);
    OptionRoundTrip(e.acceptedAt);
  }

  /** Any layout of an encodable record, older or newer, decodes to the record; a status the codec
      has no constant for is refused by its name. */
  lemma LayoutsDecode(v: ScVal, fields: Fields, e: Escrow, r: Result<Escrow>)
    requires Encodable(e) && MapResult(v) == Ok(fields) && Carries(fields, e)
    ensures DecodesTo(v, r) <==>
            r == if e.status <= 2 then Ok(WithDefaults(fields, e)) else Err(UnknownStatus(StatusName(e.status)))
  {
    hide DescribesParties, DescribesTerms, DescribesRest, FirstFault, Fault, FieldsOf, Carries, Encodable, StatusName,
         WithDefaults;
    PartiesCarried(fields, e);
    TermsCarried(fields, e);
    RestCarried(fields, e);
    StatusRoundTrip(e.status);
    var d := WithDefaults(fields, e);
    PartiesAgree(fields, e);
    if e.status <= 2 {
      assert DecodesTo(v, Ok(d));
      if DecodesTo(v, r) { DecodingIsDeterminate(v, r, Ok(d)); }
    } else {
      UnknownStatusFault(fields, e);
      var unknown: Result<Escrow> := Err(UnknownStatus(StatusName(e.status)));
      assert DecodesTo(v, unknown);
      if DecodesTo(v, r) { DecodingIsDeterminate(v, r, unknown); }
    }
  }

  lemma PartiesAgree(fields: Fields, e: Escrow)
    ensures DescribesParties(fields, WithDefaults(fields, e)) == DescribesParties(fields, e)
  {
  }

  lemma UnknownStatusFault(fields: Fields, e: Escrow)
    requires DescribesParties(fields, e)
    requires "status" in fields && DecodeStatus(fields["status"]).Err?
    ensures FirstFault(fields, 0) == Some(DecodeStatus(fields["status"]).error)
  {
    hide FieldsOf, DecodeAddress, DecodeI128, DecodeString, DecodeStatus, DecodeU32, DecodeBool,
         DecodeOptionU64, DecodeOptionAddress, FirstFault;
    ReadingOrder(fields);
  }

  /** Encoding then decoding gives the record back exactly when its status is one of the three known ones. */
  lemma EscrowRoundTrip(e: Escrow, r: Result<Escrow>)
    requires Encodable(e)
    ensures DecodesTo(Map(Some(Entries(e))), r) <==>
            r == if e.status <= 2 then Ok(e) else Err(UnknownStatus(StatusName(e.status)))
  {
    hide Encodable, StatusName, DescribesParties, DescribesTerms, DescribesRest, Describes, FirstFault, DecodesTo;
    EntriesDistinct(e);
    var fields := FieldsOf(Entries(e));
    EntriesFound(e);
    LayoutsDecode(Map(Some(Entries(e))), fields, e, r);
  }

  lemma EntriesFound(e: Escrow)
    requires Encodable(e)
    ensures SymbolKeys(Entries(e)) && Carries(FieldsOf(Entries(e)), e) && WithDefaults(FieldsOf(Entries(e)), e) == e
  {
    hide Encodable, StatusName, AddressVal, AddressVals, FieldsOf;
    EntriesDistinct(e);
    var s := Entries(e);
    forall i | 0 <= i < |s|
      ensures s[i].key.name in FieldsOf(s) && FieldsOf(s)[s[i].key.name] == s[i].val
    {
      FieldAt(s, i);
    }
    assert s[9].key.name in FieldsOf(s) && s[10].key.name in FieldsOf(s);
    assert s[12].key.name in FieldsOf(s) && s[13].key.name in FieldsOf(s);
  }
}
