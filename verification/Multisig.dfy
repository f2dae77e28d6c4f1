// Multisig releaser accounts: validating a policy, building the setup
// transaction, and verifying the account against the policy.
module Multisig {
  import opened Prelude

  const MAX_WEIGHT: int := 255

  datatype Signer = Signer(key: string, weight: int)

  datatype Policy = Policy(account: string, signers: seq<Signer>, threshold: int,
                           low: Option<int>, medium: Option<int>, high: Option<int>, removeMasterKey: Option<bool>)

  datatype Resolved = Resolved(account: string, signers: seq<Signer>, threshold: int,
                               low: int, medium: int, high: int, removeMasterKey: bool)

  datatype Field = Low | Medium | High

  datatype Reason =
    | EmptyAccount | NoSigners | BadThreshold | BadField(field: Field)
    | EmptyKey | BadWeight(key: string) | DuplicateKey(key: string)

  datatype Refusal = UnorderedThresholds | OwnKeyListed | LockedOut

  datatype Verdict = Accepted | Invalid(reasons: seq<Reason>) | LockOut(refusals: seq<Refusal>)

  function OrElse<T>(o: Option<T>, default: T): T { if o.Some? then o.value else default }

  function Resolve(p: Policy): Resolved {
    Resolved(p.account, p.signers, p.threshold,
             OrElse(p.low, p.threshold), OrElse(p.medium, p.threshold), OrElse(p.high, p.threshold),
             OrElse(p.removeMasterKey, true))
  }

  // ---- weights -----------------------------------------------------------

  predicate ValidThreshold(t: int) { 1 <= t <= MAX_WEIGHT }

  function Override(p: Policy, f: Field): Option<int> {
    match f
    case Low => p.low
    case Medium => p.medium
    case High => p.high
  }

  predicate Listed(signers: seq<Signer>, key: string) { exists i :: 0 <= i < |signers| && signers[i].key == key }

  /** The signers other than the account's own key, in order. */
  function NonMaster(signers: seq<Signer>, account: string): seq<Signer> {
    if signers == [] then []
    else
      var n := |signers| - 1;
      NonMaster(signers[..n], account) + if signers[n].key != account then [signers[n]] else []
  }

  function WeightSum(signers: seq<Signer>): int {
    if signers == [] then 0 else WeightSum(signers[..|signers| - 1]) + signers[|signers| - 1].weight
  }

  /** The weight of the first entry for a key, 0 when it is not listed. */
  function FirstWeight(signers: seq<Signer>, key: string): int {
    if signers == [] then 0 else if signers[0].key == key then signers[0].weight else FirstWeight(signers[1..], key)
  }

  function MasterWeight(r: Resolved): int { if r.removeMasterKey then 0 else FirstWeight(r.signers, r.account) }

  function RemainingWeight(r: Resolved): int { WeightSum(NonMaster(r.signers, r.account)) }

  function TotalWeight(r: Resolved): int { RemainingWeight(r) + MasterWeight(r) }

  // ---- validation --------------------------------------------------------

  predicate DistinctKeys(signers: seq<Signer>) {
    forall i, j :: 0 <= i < j < |signers| ==> signers[i].key != signers[j].key
  }

  predicate WellFormed(p: Policy) {
    && p.account != "" && p.signers != [] && ValidThreshold(p.threshold)
    && (forall f :: Override(p, f).Some? ==> ValidThreshold(Override(p, f).value))
    && (forall i :: 0 <= i < |p.signers| ==> p.signers[i].key != "" && 1 <= p.signers[i].weight <= MAX_WEIGHT)
    && DistinctKeys(p.signers)
  }

  /** The setup leaves the account able to reach its highest threshold. */
  predicate Sound(r: Resolved) {
    && r.low <= r.medium <= r.high
    && !(r.removeMasterKey && Listed(r.signers, r.account))
    && TotalWeight(r) >= r.high
  }

  predicate Valid(p: Policy) { WellFormed(p) && Sound(Resolve(p)) }

  predicate IsSignerReason(signers: seq<Signer>, r: Reason) {
    match r
    case EmptyKey => Listed(signers, "")
    case BadWeight(key) =>
      key != "" && exists i :: 0 <= i < |signers| && signers[i].key == key && !(1 <= signers[i].weight <= MAX_WEIGHT)
    case DuplicateKey(key) =>
      key != "" && exists i, j :: 0 <= i < j < |signers| && signers[i].key == key && signers[j].key == key
    case _ => false
  }

  predicate IsReason(p: Policy, r: Reason) {
    match r
    case EmptyAccount => p.account == ""
    case NoSigners => p.signers == []
    case BadThreshold => !ValidThreshold(p.threshold)
    case BadField(f) => Override(p, f).Some? && !ValidThreshold(Override(p, f).value)
    case _ => IsSignerReason(p.signers, r)
  }

  predicate IsRefusal(r: Resolved, e: Refusal) {
    match e
    case UnorderedThresholds => !(r.low <= r.medium <= r.high)
    case OwnKeyListed => r.removeMasterKey && Listed(r.signers, r.account)
    case LockedOut => TotalWeight(r) < r.high
  }

  /** A policy is well formed exactly when nothing is wrong with it. */
  lemma ReasonsMeaning(p: Policy)
    ensures WellFormed(p) <==> forall r :: !IsReason(p, r)
  {
    if !WellFormed(p) {
      if f :| Override(p, f).Some? && !ValidThreshold(Override(p, f).value) {
        assert IsReason(p, BadField(f));
      } else if i :| 0 <= i < |p.signers| && p.signers[i].key == "" {
        assert IsReason(p, EmptyKey);
      } else if i :| 0 <= i < |p.signers| && !(1 <= p.signers[i].weight <= MAX_WEIGHT) {
        assert IsReason(p, BadWeight(p.signers[i].key));
      } else if !DistinctKeys(p.signers) {
        var i, j :| 0 <= i < j < |p.signers| && p.signers[i].key == p.signers[j].key;
        assert IsReason(p, DuplicateKey(p.signers[i].key));
      } else {
        assert IsReason(p, EmptyAccount) || IsReason(p, NoSigners) || IsReason(p, BadThreshold);
      }
    }
  }

  method SignerReasons(signers: seq<Signer>) returns (reasons: seq<Reason>)
    ensures forall r :: r in reasons <==> IsSignerReason(signers, r)
    ensures forall r :: r in reasons ==> r.EmptyKey? || r.BadWeight? || r.DuplicateKey?
  {
    reasons := [];
    var seen: set<string> := {};
    for n := 0 to |signers|
      invariant forall k :: k in seen <==> k != "" && Listed(signers[..n], k)
      invariant forall r :: r in reasons <==> IsSignerReason(signers[..n], r)
      invariant forall r :: r in reasons ==> r.EmptyKey? || r.BadWeight? || r.DuplicateKey?
    {
      var signer := signers[n];
      NextReason(signers, n);
      if signer.key == "" {
        reasons := reasons + [EmptyKey];
        continue;
      }
      if !(1 <= signer.weight <= MAX_WEIGHT) {
        reasons := reasons + [BadWeight(signer.key)];
      }
      if signer.key in seen {
        reasons := reasons + [DuplicateKey(signer.key)];
      }
      seen := seen + {signer.key};
    }
    assert signers[..|signers|] == signers;
  }

  lemma NextReason(signers: seq<Signer>, n: nat)
    requires n < |signers|
    ensures forall k :: Listed(signers[..n + 1], k) <==> Listed(signers[..n], k) || k == signers[n].key
    ensures forall r :: IsSignerReason(signers[..n + 1], r) <==>
              || IsSignerReason(signers[..n], r)
              || (r == EmptyKey && signers[n].key == "")
              || (r == BadWeight(signers[n].key) && signers[n].key != "" && !(1 <= signers[n].weight <= MAX_WEIGHT))
              || (r == DuplicateKey(signers[n].key) && signers[n].key != "" && Listed(signers[..n], signers[n].key))
  {
    var a, b := signers[..n], signers[..n + 1];
    assert b[n] == signers[n];
    assert forall i :: 0 <= i < n ==> b[i] == a[i];
    ListedNext(signers, n);
    forall r
      ensures IsSignerReason(b, r) <==>
                || IsSignerReason(a, r)
                || (r == EmptyKey && signers[n].key == "")
                || (r == BadWeight(signers[n].key) && signers[n].key != "" && !(1 <= signers[n].weight <= MAX_WEIGHT))
                || (r == DuplicateKey(signers[n].key) && signers[n].key != "" && Listed(a, signers[n].key))
    {
      if r.BadWeight? && IsSignerReason(a, r) {
        var i :| 0 <= i < n && a[i].key == r.key && !(1 <= a[i].weight <= MAX_WEIGHT);
        assert b[i] == a[i];
      }
      if r.DuplicateKey? && IsSignerReason(a, r) {
        var i, j :| 0 <= i < j < n && a[i].key == r.key && a[j].key == r.key;
        assert b[i] == a[i] && b[j] == a[j];
      }
      if r == DuplicateKey(signers[n].key) && Listed(a, signers[n].key) {
        var i :| 0 <= i < n && a[i].key == signers[n].key;
        assert b[i] == a[i];
      }
    }
  }

  method PolicyReasons(p: Policy) returns (reasons: seq<Reason>)
    ensures forall r :: r in reasons <==> IsReason(p, r)
  {
    hide Listed, IsSignerReason;
    reasons := [];
    if p.account == "" { reasons := reasons + [EmptyAccount]; }
    if p.signers == [] { reasons := reasons + [NoSigners]; }
    if !ValidThreshold(p.threshold) { reasons := reasons + [BadThreshold]; }
    if p.low.Some? && !ValidThreshold(p.low.value) { reasons := reasons + [BadField(Low)]; }
    if p.medium.Some? && !ValidThreshold(p.medium.value) { reasons := reasons + [BadField(Medium)]; }
    if p.high.Some? && !ValidThreshold(p.high.value) { reasons := reasons + [BadField(High)]; }
    var more := SignerReasons(p.signers);
    reasons := reasons + more;
  }

  method LockOutRefusals(r: Resolved) returns (refusals: seq<Refusal>)
    ensures forall e :: e in refusals <==> IsRefusal(r, e)
  {
    hide Listed, TotalWeight;
    refusals := [];
    if r.low > r.medium || r.medium > r.high { refusals := refusals + [UnorderedThresholds]; }
    if Listed(r.signers, r.account) && r.removeMasterKey { refusals := refusals + [OwnKeyListed]; }
    if TotalWeight(r) < r.high { refusals := refusals + [LockedOut]; }
  }

  lemma RefusalsMeaning(r: Resolved)
    ensures Sound(r) <==> forall e :: !IsRefusal(r, e)
  {
    hide Listed, TotalWeight;
    assert IsRefusal(r, UnorderedThresholds) || IsRefusal(r, OwnKeyListed) || IsRefusal(r, LockedOut) || Sound(r);
  }

  /** Every reason is reported, structural ones first; then every lock-out risk. */
  method ValidatePolicy(p: Policy) returns (v: Verdict)
    ensures v.Accepted? <==> Valid(p)
    ensures v.Invalid? <==> !WellFormed(p)
    ensures v.Invalid? ==> forall r :: r in v.reasons <==> IsReason(p, r)
    ensures v.LockOut? ==> forall e :: e in v.refusals <==> IsRefusal(Resolve(p), e)
  {
    hide WellFormed, Sound, IsReason, IsRefusal;
    var reasons := PolicyReasons(p);
    ReasonsMeaning(p);
    assert |reasons| > 0 ==> reasons[0] in reasons;
    if |reasons| > 0 { return Invalid(reasons); }
    var refusals := LockOutRefusals(Resolve(p));
    RefusalsMeaning(Resolve(p));
    assert |refusals| > 0 ==> refusals[0] in refusals;
    if |refusals| > 0 { return LockOut(refusals); }
    v := Accepted;
  }

  // ---- dry run and setup -------------------------------------------------

  datatype DryRun = DryRun(policy: Resolved, totalWeight: int, remainingWeight: int, masterKeyWeight: int, operationCount: int)

  function Summary(r: Resolved): DryRun {
    DryRun(r, TotalWeight(r), RemainingWeight(r), MasterWeight(r),
           |NonMaster(r.signers, r.account)| + if r.removeMasterKey then 1 else 0)
  }

  /** One setOptions operation; the three thresholds are written by every one. */
  datatype SetOptions = SetOptions(signer: Option<Signer>, masterWeight: Option<int>, low: int, medium: int, high: int)

  function SignerOperation(r: Resolved, s: Signer): SetOptions { SetOptions(Some(s), None, r.low, r.medium, r.high) }

  function SignerOperations(r: Resolved, signers: seq<Signer>): seq<SetOptions> {
    seq(|signers|, i requires 0 <= i < |signers| => SignerOperation(r, signers[i]))
  }

  function Operations(r: Resolved): seq<SetOptions> {
    SignerOperations(r, NonMaster(r.signers, r.account))
    + if r.removeMasterKey then [SetOptions(None, Some(0), r.low, r.medium, r.high)] else []
  }

  datatype Setup = Refused(verdict: Verdict) | Built(operations: seq<SetOptions>, dryRun: DryRun)

  method BuildSetup(p: Policy) returns (s: Setup)
    ensures s.Built? <==> Valid(p)
    ensures s.Built? ==> s.dryRun == Summary(Resolve(p)) && s.operations == Operations(Resolve(p))
    ensures s.Built? ==> |s.operations| == s.dryRun.operationCount
    ensures s.Refused? ==> !s.verdict.Accepted?
  {
    var verdict := ValidatePolicy(p);
    if !verdict.Accepted? { return Refused(verdict); }
    var policy := Resolve(p);
    var operations := [];
    var signers := NonMaster(policy.signers, policy.account);
    for i := 0 to |signers|
      invariant operations == SignerOperations(policy, signers[..i])
    {
      operations := operations + [SignerOperation(policy, signers[i])];
    }
    assert signers[..|signers|] == signers;
    if policy.removeMasterKey {
      operations := operations + [SetOptions(None, Some(0), policy.low, policy.medium, policy.high)];
    }
    s := Built(operations, Summary(policy));
  }

  // ---- the account on the ledger -----------------------------------------

  /** A ledger account: the weight of its own key, its other signers and its thresholds. */
  datatype Account = Account(master: int, signers: map<string, int>, low: int, medium: int, high: int)

  /** A new account: its own key has weight one and every threshold is zero. */
  const FRESH: Account := Account(1, map[], 0, 0, 0)

  /** setOptions: weight zero removes a signer, any other weight sets it. */
  function ApplyOne(a: Account, op: SetOptions): Account {
    Account(
      OrElse(op.masterWeight, a.master),
      if op.signer.None? then a.signers
      else if op.signer.value.weight == 0 then a.signers - {op.signer.value.key}
      else a.signers[op.signer.value.key := op.signer.value.weight],
      op.low, op.medium, op.high)
  }

  function Apply(a: Account, ops: seq<SetOptions>): Account {
    if ops == [] then a else ApplyOne(Apply(a, ops[..|ops| - 1]), ops[|ops| - 1])
  }

  /** The weights by key; a later entry for a key replaces an earlier one. */
  function WeightsOf(signers: seq<Signer>): map<string, int> {
    if signers == [] then map[]
    else
      var n := |signers| - 1;
      WeightsOf(signers[..n])[signers[n].key := signers[n].weight]
  }

  lemma {:induction false} SignersInstalled(r: Resolved, signers: seq<Signer>, a: Account)
    requires forall i :: 0 <= i < |signers| ==> signers[i].weight != 0
    ensures var b := Apply(a, SignerOperations(r, signers));
            && b.master == a.master && b.signers == a.signers + WeightsOf(signers)
            && if signers == [] then b == a else b.low == r.low && b.medium == r.medium && b.high == r.high
  {
    var ops := SignerOperations(r, signers);
    if signers != [] {
      var n := |signers| - 1;
      assert ops[..n] == SignerOperations(r, signers[..n]);
      SignersInstalled(r, signers[..n], a);
    }
  }

  lemma {:induction false} WeightsListed(signers: seq<Signer>)
    ensures forall k :: k in WeightsOf(signers) <==> Listed(signers, k)
  {
    if signers != [] {
      var n := |signers| - 1;
      WeightsListed(signers[..n]);
      ListedNext(signers, n);
      assert signers[..n + 1] == signers;
    }
  }

  lemma ListedNext(signers: seq<Signer>, n: nat)
    requires n < |signers|
    ensures forall k :: Listed(signers[..n + 1], k) <==> Listed(signers[..n], k) || k == signers[n].key
  {
    var a, b := signers[..n], signers[..n + 1];
    assert b[n] == signers[n];
    forall k ensures Listed(b, k) <==> Listed(a, k) || k == signers[n].key {
      if Listed(a, k) {
        var i :| 0 <= i < n && a[i].key == k;
        assert b[i].key == k;
      }
    }
  }

  lemma {:induction false} NonMasterWeights(signers: seq<Signer>, account: string)
    ensures WeightsOf(NonMaster(signers, account)) == WeightsOf(signers) - {account}
  {
    if signers != [] {
      var n := |signers| - 1;
      var front := signers[..n];
      NonMasterWeights(front, account);
      var rest := NonMaster(signers, account);
      if signers[n].key != account {
        assert rest[..|rest| - 1] == NonMaster(front, account);
      } else {
        assert rest == NonMaster(front, account);
      }
    }
  }

  lemma {:induction false} NonMasterPart(signers: seq<Signer>, account: string)
    ensures forall s :: s in NonMaster(signers, account) ==> s in signers
    ensures !Listed(signers, account) ==> NonMaster(signers, account) == signers
  {
    if signers != [] {
      var n := |signers| - 1;
      NonMasterPart(signers[..n], account);
      ListedNext(signers, n);
      assert signers[..n + 1] == signers;
      assert signers == signers[..n] + [signers[n]];
    }
  }

  /** The first entry for a key decides its weight; an unlisted key weighs nothing. */
  lemma {:induction false} FirstWeightMeaning(signers: seq<Signer>, key: string)
    ensures !Listed(signers, key) ==> FirstWeight(signers, key) == 0
    ensures forall i :: 0 <= i < |signers| && signers[i].key == key && (forall j :: 0 <= j < i ==> signers[j].key != key) ==>
              FirstWeight(signers, key) == signers[i].weight
  {
    if signers != [] && signers[0].key != key {
      var rest := signers[1..];
      FirstWeightMeaning(rest, key);
      assert forall i :: 0 < i < |signers| ==> signers[i] == rest[i - 1];
      if Listed(rest, key) {
        var i :| 0 <= i < |rest| && rest[i].key == key;
        assert signers[i + 1].key == key;
      }
    }
  }

  /** What the setup does to any account. */
  lemma SetupEffect(r: Resolved, a: Account)
    requires forall i :: 0 <= i < |r.signers| ==> r.signers[i].weight != 0
    ensures var b := Apply(a, Operations(r));
            && b.master == (if r.removeMasterKey then 0 else a.master)
            && b.signers == a.signers + (WeightsOf(r.signers) - {r.account})
            && if Operations(r) == [] then b == a else b.low == r.low && b.medium == r.medium && b.high == r.high
  {
    var others := NonMaster(r.signers, r.account);
    NonMasterWeights(r.signers, r.account);
    NonMasterPart(r.signers, r.account);
    assert forall i :: 0 <= i < |others| ==> others[i] in others;
    SignersInstalled(r, others, a);
    var ops := Operations(r);
    if r.removeMasterKey {
      assert ops[..|ops| - 1] == SignerOperations(r, others);
    } else {
      assert ops == SignerOperations(r, others);
    }
  }

  // ---- verification ------------------------------------------------------

  /** What Horizon returns for an account. */
  datatype Response = Response(signers: seq<Signer>, low: int, medium: int, high: int)

  datatype OnState = OnState(account: string, signers: seq<Signer>, low: int, medium: int, high: int,
                             masterKeyWeight: int, totalWeight: int)

  function ReadOnChain(account: string, response: Response): OnState {
    OnState(account, response.signers, response.low, response.medium, response.high,
            FirstWeight(response.signers, account), WeightSum(response.signers))
  }

  datatype Difference =
    | Threshold(field: Field, expected: int, got: int)
    | MasterKey(expected: int, got: int)
    | Missing(key: string, expected: int)
    | Weight(key: string, expected: int, got: int)
    | Unexpected(key: string, got: int)

  datatype Report = Report(matches: bool, onState: OnState, differences: seq<Difference>)

  /** The account is as the policy says, apart from how it is listed. */
  predicate Agrees(r: Resolved, s: OnState) {
    && s.low == r.low && s.medium == r.medium && s.high == r.high
    && s.masterKeyWeight == MasterWeight(r)
    && WeightsOf(s.signers) - {r.account} == WeightsOf(r.signers) - {r.account}
  }

  predicate IsDifference(r: Resolved, s: OnState, d: Difference) {
    var expected, on := WeightsOf(r.signers) - {r.account}, WeightsOf(s.signers) - {r.account};
    match d
    case Threshold(Low, e, g) => e == r.low && g == s.low && e != g
    case Threshold(Medium, e, g) => e == r.medium && g == s.medium && e != g
    case Threshold(High, e, g) => e == r.high && g == s.high && e != g
    case MasterKey(e, g) => e == MasterWeight(r) && g == s.masterKeyWeight && e != g
    case Missing(k, e) => k in expected && e == expected[k] && k !in on
    case Weight(k, e, g) => k in expected && k in on && e == expected[k] && g == on[k] && e != g
    case Unexpected(k, g) => k in on && g == on[k] && k !in expected
  }

  lemma DifferencesMeaning(r: Resolved, s: OnState)
    ensures Agrees(r, s) <==> forall d :: !IsDifference(r, s, d)
  {
    var expected, on := WeightsOf(r.signers) - {r.account}, WeightsOf(s.signers) - {r.account};
    if forall d :: !IsDifference(r, s, d) {
      assert !IsDifference(r, s, Threshold(Low, r.low, s.low));
      assert !IsDifference(r, s, Threshold(Medium, r.medium, s.medium));
      assert !IsDifference(r, s, Threshold(High, r.high, s.high));
      assert !IsDifference(r, s, MasterKey(MasterWeight(r), s.masterKeyWeight));
      forall k ensures k in expected ==> k in on && on[k] == expected[k] {
        if k in expected {
          assert !IsDifference(r, s, Missing(k, expected[k]));
          assert k in on ==> !IsDifference(r, s, Weight(k, expected[k], on[k]));
        }
      }
      forall k ensures k in on ==> k in expected {
        if k in on { assert !IsDifference(r, s, Unexpected(k, on[k])); }
      }
      assert expected == on;
    }
  }

  /** A JavaScript Map built from entries: its keys in insertion order and its final weights. */
  method ToMap(signers: seq<Signer>) returns (keys: seq<string>, weights: map<string, int>)
    ensures weights == WeightsOf(signers)
    ensures forall k :: k in keys <==> k in weights
  {
    keys, weights := [], map[];
    for i := 0 to |signers|
      invariant weights == WeightsOf(signers[..i])
      invariant forall k :: k in keys <==> k in weights
    {
      if signers[i].key !in weights { keys := keys + [signers[i].key]; }
      weights := weights[signers[i].key := signers[i].weight];
      assert signers[..i + 1][..i] == signers[..i];
    }
    assert signers[..|signers|] == signers;
  }

  method HeaderDifferences(r: Resolved, s: OnState) returns (ds: seq<Difference>)
    ensures forall d :: d in ds <==> (d.Threshold? || d.MasterKey?) && IsDifference(r, s, d)
  {
    hide WeightsOf, FirstWeight, MasterWeight;
    ds := [];
    if s.high != r.high { ds := ds + [Threshold(High, r.high, s.high)]; }
    if s.medium != r.medium { ds := ds + [Threshold(Medium, r.medium, s.medium)]; }
    if s.low != r.low { ds := ds + [Threshold(Low, r.low, s.low)]; }
    var expectedMaster := MasterWeight(r);
    if s.masterKeyWeight != expectedMaster { ds := ds + [MasterKey(expectedMaster, s.masterKeyWeight)]; }
  }

  method VerifyMultisig(p: Policy, response: Response) returns (report: Report)
    ensures report.onState == ReadOnChain(p.account, response)
    ensures forall d :: d in report.differences <==> IsDifference(Resolve(p), report.onState, d)
    ensures report.matches <==> Agrees(Resolve(p), report.onState)
  {
    hide WeightsOf, WeightSum, Agrees;
    var r := Resolve(p);
    var s := ReadOnChain(r.account, response);
    var ds := HeaderDifferences(r, s);
    var keys, expected := ToMap(r.signers);
    var onKeys, on := ToMap(s.signers);
    for i := 0 to |keys|
      invariant forall d :: d in ds <==>
                  IsDifference(r, s, d) && !d.Unexpected? && (d.Missing? || d.Weight? ==> d.key in keys[..i])
    {
      var key := keys[i];
      assert keys[..i + 1] == keys[..i] + [key];
      assert key in expected;
      if key == r.account { continue; }
      var weight := expected[key];
      if key !in on {
        ds := ds + [Missing(key, weight)];
      } else if on[key] != weight {
        ds := ds + [Weight(key, weight, on[key])];
      }
    }
    assert keys[..|keys|] == keys;
    for i := 0 to |onKeys|
      invariant forall d :: d in ds <==> IsDifference(r, s, d) && (d.Unexpected? ==> d.key in onKeys[..i])
    {
      var key := onKeys[i];
      assert onKeys[..i + 1] == onKeys[..i] + [key];
      assert key in on;
      if key == r.account { continue; }
      if key !in expected { ds := ds + [Unexpected(key, on[key])]; }
    }
    assert onKeys[..|onKeys|] == onKeys;
    DifferencesMeaning(r, s);
    assert |ds| > 0 ==> ds[0] in ds;
    report := Report(|ds| == 0, s, ds);
  }

  // ---- build, then verify ------------------------------------------------

  /** The response lists every signer once with its weight, and the account's own key unless its weight is zero. */
  predicate Reports(response: Response, account: string, a: Account) {
    && DistinctKeys(response.signers)
    && WeightsOf(response.signers) - {account} == a.signers - {account}
    && (if account in WeightsOf(response.signers) then WeightsOf(response.signers)[account] == a.master else a.master == 0)
    && response.low == a.low && response.medium == a.medium && response.high == a.high
  }

  lemma {:induction false} FirstIsOnly(signers: seq<Signer>, key: string)
    requires DistinctKeys(signers)
    ensures FirstWeight(signers, key) == if key in WeightsOf(signers) then WeightsOf(signers)[key] else 0
  {
    if signers != [] {
      FirstIsOnly(signers[1..], key);
      WeightsFromFront(signers);
    }
  }

  lemma {:induction false} WeightsFromFront(signers: seq<Signer>)
    requires signers != [] && DistinctKeys(signers)
    ensures signers[0].key !in WeightsOf(signers[1..])
    ensures WeightsOf(signers) == WeightsOf(signers[1..])[signers[0].key := signers[0].weight]
  {
    var n := |signers| - 1;
    if n > 0 {
      WeightsFromFront(signers[..n]);
      assert signers[..n][1..] == signers[1..][..n - 1];
    } else {
      assert signers[1..] == [] && signers[..0] == [];
    }
  }

  /** After the setup the account matches the policy exactly when it had no signer outside the policy to
      begin with and whatever the operations do not write was right already. */
  lemma BuildThenVerify(p: Policy, a: Account, response: Response)
    requires Valid(p) && p.account !in a.signers
    requires Reports(response, p.account, Apply(a, Operations(Resolve(p))))
    ensures var r := Resolve(p);
            Agrees(r, ReadOnChain(p.account, response)) <==>
              && (forall k :: k in a.signers ==> Listed(p.signers, k))
              && (r.removeMasterKey || a.master == FirstWeight(p.signers, p.account))
              && (Operations(r) != [] || (a.low == r.low && a.medium == r.medium && a.high == r.high))
  {
    hide WeightsOf, Apply, Operations, FirstWeight, WeightSum, NonMaster, Listed, Sound;
    var r := Resolve(p);
    SetupEffect(r, a);
    WeightsListed(p.signers);
    FirstIsOnly(response.signers, p.account);
    var expected := WeightsOf(p.signers) - {p.account};
    var b := Apply(a, Operations(r));
    assert b.signers - {p.account} == a.signers + expected;
    if forall k :: k in a.signers ==> Listed(p.signers, k) {
      assert a.signers + expected == expected;
    }
  }

  /** Setting up a fresh account with the default removal of its own key always verifies. */
  lemma FreshSetupVerifies(p: Policy, response: Response)
    requires Valid(p) && Resolve(p).removeMasterKey
    requires Reports(response, p.account, Apply(FRESH, Operations(Resolve(p))))
    ensures Agrees(Resolve(p), ReadOnChain(p.account, response))
    ensures ReadOnChain(p.account, response).totalWeight == TotalWeight(Resolve(p)) >= response.high
  {
    hide Apply, Operations, NonMaster, FirstWeight;
    var r, account := Resolve(p), p.account;
    BuildThenVerify(p, FRESH, response);
    SetupEffect(r, FRESH);
    var listed := WeightsOf(response.signers);
    WeightsListed(p.signers);
    NonMasterPart(p.signers, account);
    assert listed - {account} == WeightsOf(p.signers) by {
      assert FRESH.signers + WeightsOf(p.signers) == WeightsOf(p.signers);
      assert WeightsOf(p.signers) - {account} == WeightsOf(p.signers);
    }
    SumOfList(p.signers);
    SumOfList(response.signers);
    if account in listed { SumRemove(listed, Weighing, account); } else { assert listed - {account} == listed; }
  }

  // ---- the defaults ------------------------------------------------------

  /** A threshold left out is `threshold`; a removal left out happens. */
  predicate RemovesOwnKey(p: Policy) { p.removeMasterKey != Some(false) }

  /** What a policy installs on any account, in the policy's own fields. */
  lemma SetupInstalls(p: Policy, a: Account)
    requires Valid(p)
    ensures var ops := Operations(Resolve(p)); var b := Apply(a, ops);
            && (RemovesOwnKey(p) ==> b.master == 0 && ops != [] && ops[|ops| - 1].masterWeight == Some(0) && ops[|ops| - 1].signer == None)
            && (!RemovesOwnKey(p) ==> b.master == a.master)
            && b.signers == a.signers + (WeightsOf(p.signers) - {p.account})
            && (ops != [] ==>
                  && b.low == (match p.low case Some(t) => t case None => p.threshold)
                  && b.medium == (match p.medium case Some(t) => t case None => p.threshold)
                  && b.high == (match p.high case Some(t) => t case None => p.threshold))
  {
    SetupEffect(Resolve(p), a);
  }

  /** The dry run's figures: the weights left after the setup and the number of operations. */
  lemma SummaryMeaning(p: Policy)
    requires Valid(p)
    ensures var d := Summary(Resolve(p));
            && d.remainingWeight == Sum(WeightsOf(p.signers) - {p.account}, Weighing)
            && d.masterKeyWeight == (if RemovesOwnKey(p) then 0 else FirstWeight(p.signers, p.account))
            && d.totalWeight == d.remainingWeight + d.masterKeyWeight
            && d.operationCount == |p.signers| - (if Listed(p.signers, p.account) then 1 else 0) + (if RemovesOwnKey(p) then 1 else 0)
  {
    hide WeightsOf, FirstWeight, Listed, WeightSum;
    RemainingIsSum(p.signers, p.account);
    OthersCount(p.signers, p.account);
  }

  lemma {:induction false} OthersCount(signers: seq<Signer>, account: string)
    requires DistinctKeys(signers)
    ensures |NonMaster(signers, account)| == |signers| - if Listed(signers, account) then 1 else 0
  {
    if signers != [] {
      var n := |signers| - 1;
      OthersCount(signers[..n], account);
      ListedNext(signers, n);
      assert signers[..n + 1] == signers;
      if Listed(signers[..n], account) { var i :| 0 <= i < n && signers[..n][i].key == account; }
    }
  }

  /** What `matches` compares, in the policy's own fields. */
  lemma AgreementMeaning(p: Policy, s: OnState)
    ensures Agrees(Resolve(p), s) <==>
              && s.low == (match p.low case Some(t) => t case None => p.threshold)
              && s.medium == (match p.medium case Some(t) => t case None => p.threshold)
              && s.high == (match p.high case Some(t) => t case None => p.threshold)
              && s.masterKeyWeight == (if RemovesOwnKey(p) then 0 else FirstWeight(p.signers, p.account))
              && WeightsOf(s.signers) - {p.account} == WeightsOf(p.signers) - {p.account}
  {
  }

  /** A policy is valid exactly when its names and weights are well formed, its thresholds are ordered, its own
      key is not listed for removal, and the weights left after the setup reach the high threshold. */
  lemma ValidMeaning(p: Policy)
    ensures var high := match p.high case Some(t) => t case None => p.threshold;
            var medium := match p.medium case Some(t) => t case None => p.threshold;
            var low := match p.low case Some(t) => t case None => p.threshold;
            Valid(p) <==>
              && p.account != "" && p.signers != [] && 1 <= p.threshold <= 255
              && 1 <= low <= medium <= high <= 255
              && (forall i :: 0 <= i < |p.signers| ==> p.signers[i].key != "" && 1 <= p.signers[i].weight <= 255)
              && DistinctKeys(p.signers)
              && !(RemovesOwnKey(p) && Listed(p.signers, p.account))
              && Sum(WeightsOf(p.signers) - {p.account}, Weighing)
                 + (if RemovesOwnKey(p) then 0 else FirstWeight(p.signers, p.account)) >= high
  {
    hide WeightsOf, FirstWeight, Listed, NonMaster, WeightSum;
    FieldsValid(p);
    if DistinctKeys(p.signers) { RemainingIsSum(p.signers, p.account); }
  }

  lemma FieldsValid(p: Policy)
    ensures (forall f :: Override(p, f).Some? ==> ValidThreshold(Override(p, f).value)) <==>
              && (p.low.Some? ==> 1 <= p.low.value <= 255)
              && (p.medium.Some? ==> 1 <= p.medium.value <= 255)
              && (p.high.Some? ==> 1 <= p.high.value <= 255)
  {
    assert Override(p, Low) == p.low && Override(p, Medium) == p.medium && Override(p, High) == p.high;
  }

  lemma RemainingIsSum(signers: seq<Signer>, account: string)
    requires DistinctKeys(signers)
    ensures WeightSum(NonMaster(signers, account)) == Sum(WeightsOf(signers) - {account}, Weighing)
  {
    NonMasterWeights(signers, account);
    NonMasterDistinct(signers, account);
    SumOfList(NonMaster(signers, account));
  }

  lemma {:induction false} NonMasterDistinct(signers: seq<Signer>, account: string)
    requires DistinctKeys(signers)
    ensures DistinctKeys(NonMaster(signers, account))
  {
    if signers != [] {
      var n := |signers| - 1;
      NonMasterDistinct(signers[..n], account);
      NonMasterPart(signers[..n], account);
      var front := NonMaster(signers[..n], account);
      forall i | 0 <= i < |front| ensures front[i].key != signers[n].key {
        assert front[i] in front;
        var j :| 0 <= j < n && signers[j] == front[i];
      }
    }
  }

  const Weighing := (k: string, w: int) => w

  lemma {:induction false} SumOfList(signers: seq<Signer>)
    requires DistinctKeys(signers)
    ensures WeightSum(signers) == Sum(WeightsOf(signers), Weighing)
  {
    if signers != [] {
      var n := |signers| - 1;
      SumOfList(signers[..n]);
      WeightsListed(signers[..n]);
      SumUpdate(WeightsOf(signers[..n]), Weighing, signers[n].key, signers[n].weight);
    }
  }
}
