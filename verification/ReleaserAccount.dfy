// The releaser smart account: an M-of-N signer set with nonce-protected
// management and a cap on authorizations per aligned ledger window.
module ReleaserAccount {
  import opened Prelude

  const MAX_SIGNERS: nat := 20

  type Key = nat
  type Id = nat

  datatype Action = AddSigner(key: Key) | RemoveSigner(key: Key) | SetThreshold(threshold: nat) | SetPolicy(cap: nat, windowLedgers: nat)

  /** What a key can sign. Digests are injective, so they stand as the tuples they hash. */
  datatype Payload = Management(account: Id, nonce: nat, action: Action) | AuthEntry(digest: nat)

  datatype Signature = Signature(key: Key, over: Payload)

  /** The signatures that exist: which key has signed which payload. */
  type Signed = set<(Key, Payload)>

  datatype Error =
    | InvalidConfiguration | InvalidSignerSet | InvalidThreshold | UnauthorizedContext | InvalidSignature
    | SignerAlreadyExists | UnknownSigner | CannotRemoveBelowThreshold | InvalidPolicy | RateLimited

  /** `Trap` is a host trap, such as an Ed25519 signature that does not verify. */
  datatype Outcome<+T> = Ok(value: T) | Err(error: Error) | Trap
  {
    predicate IsFailure() { !Ok? }
    function PropagateFailure<U>(): Outcome<U>
      requires IsFailure()
    {
      if Err? then Outcome<U>.Err(error) else Outcome<U>.Trap
    }
    function Extract(): T
      requires Ok?
    {
      value
    }
  }

  /** Contract storage; `usage` counts authorizations per window index. */
  datatype Account = Account(
    self: Id,
    escrow: Id,
    threshold: nat,
    signers: set<Key>,
    signerCount: nat,
    nonce: nat,
    cap: nat,
    windowLedgers: nat,
    usage: map<nat, nat>,
    maxTtl: nat)

  datatype Arg = AddressArg(id: Id) | OtherArg

  datatype Context = ContractCall(target: Id, fn: string, args: seq<Arg>) | CreateContract

  function Require(condition: bool, error: Error): Outcome<()> {
    if condition then Ok(()) else Err(error)
  }

  // ---- rules -------------------------------------------------------------

  predicate HasDuplicates(keys: seq<Key>) {
    exists i, j :: 0 <= i < j < |keys| && keys[i] == keys[j]
  }

  predicate GoodPolicy(cap: nat, windowLedgers: nat, maxTtl: nat) {
    cap != 0 && windowLedgers != 0 && windowLedgers < maxTtl
  }

  function Elements(keys: seq<Key>): set<Key> { set k | k in keys }

  function Construct(self: Id, escrow: Id, keys: seq<Key>, threshold: nat, cap: nat, windowLedgers: nat, maxTtl: nat): Outcome<Account> {
    var _ :- Require(keys != [] && |keys| <= MAX_SIGNERS && threshold != 0 && threshold <= |keys|, InvalidConfiguration);
    var _ :- Require(GoodPolicy(cap, windowLedgers, maxTtl), InvalidPolicy);
    var _ :- Require(!HasDuplicates(keys), InvalidSignerSet);
    Ok(Account(self, escrow, threshold, Elements(keys), |keys|, 0, cap, windowLedgers, map[], maxTtl))
  }

  predicate Verifies(signed: Signed, sig: Signature, payload: Payload) {
    sig.over == payload && (sig.key, payload) in signed
  }

  predicate KeySeen(sigs: seq<Signature>, key: Key) { exists i :: 0 <= i < |sigs| && sigs[i].key == key }

  /** Signatures in order: registered, not seen before, genuine. */
  function ScanSignatures(signers: set<Key>, signed: Signed, payload: Payload, sigs: seq<Signature>): Outcome<()> {
    if sigs == [] then Ok(())
    else
      var before, last := sigs[..|sigs| - 1], sigs[|sigs| - 1];
      var _ :- ScanSignatures(signers, signed, payload, before);
      var _ :- Require(last.key in signers, InvalidSignature);
      var _ :- Require(!KeySeen(before, last.key), InvalidSignature);
      if Verifies(signed, last, payload) then Ok(()) else Trap
  }

  function VerifySignatures(s: Account, signed: Signed, payload: Payload, sigs: seq<Signature>): Outcome<()> {
    var _ :- Require(sigs != [] && |sigs| <= s.signerCount && |sigs| <= MAX_SIGNERS, InvalidSignature);
    var _ :- ScanSignatures(s.signers, signed, payload, sigs);
    Require(|sigs| >= s.threshold, InvalidSignature)
  }

  function ActionRule(s: Account, action: Action, sigs: seq<Signature>): Outcome<Account> {
    match action
    case AddSigner(key) =>
      var _ :- Require(s.signerCount < MAX_SIGNERS, InvalidSignerSet);
      var _ :- Require(key !in s.signers, SignerAlreadyExists);
      Ok(s.(signers := s.signers + {key}, signerCount := s.signerCount + 1))
    case RemoveSigner(key) =>
      var _ :- Require(key in s.signers, UnknownSigner);
      if s.signerCount <= s.threshold then Err(CannotRemoveBelowThreshold)
      else if s.signerCount == 0 then Trap
      else Ok(s.(signers := s.signers - {key}, signerCount := s.signerCount - 1))
    case SetThreshold(threshold) =>
      var _ :- Require(threshold != 0 && threshold <= s.signerCount, InvalidThreshold);
      Ok(s.(threshold := threshold))
    case SetPolicy(cap, windowLedgers) =>
      var _ :- Require(|sigs| == s.signerCount, InvalidSignature);
      var _ :- Require(GoodPolicy(cap, windowLedgers, s.maxTtl), InvalidPolicy);
      Ok(s.(cap := cap, windowLedgers := windowLedgers))
  }

  function CurrentPayload(s: Account, action: Action): Payload { Management(s.self, s.nonce, action) }

  function ManageRule(s: Account, signed: Signed, action: Action, sigs: seq<Signature>): Outcome<Account> {
    var _ :- VerifySignatures(s, signed, CurrentPayload(s, action), sigs);
    var t :- ActionRule(s, action, sigs);
    Ok(t.(nonce := s.nonce + 1))
  }

  /** Exactly one context, a release or refund of the bound escrow made as this account. */
  predicate ReleaseOrRefundOnly(s: Account, contexts: seq<Context>) {
    && |contexts| == 1
    && contexts[0].ContractCall?
    && contexts[0].target == s.escrow
    && (contexts[0].fn == "release" || contexts[0].fn == "refund")
    && |contexts[0].args| == 2
    && contexts[0].args[1] == AddressArg(s.self)
  }

  /** `sequence.saturating_sub(1) / window_ledgers`. */
  function WindowOf(sequence: nat, windowLedgers: nat): nat
    requires windowLedgers > 0
  {
    (if sequence == 0 then 0 else sequence - 1) / windowLedgers
  }

  function Usage(s: Account, window: nat): nat { if window in s.usage then s.usage[window] else 0 }

  function SlotRule(s: Account, sequence: nat): Outcome<Account> {
    if s.windowLedgers == 0 then Trap
    else
      var w := WindowOf(sequence, s.windowLedgers);
      var _ :- Require(Usage(s, w) < s.cap, RateLimited);
      Ok(s.(usage := s.usage[w := Usage(s, w) + 1]))
  }

  function AuthRule(s: Account, signed: Signed, digest: nat, sigs: seq<Signature>, contexts: seq<Context>, sequence: nat): Outcome<Account> {
    var _ :- Require(ReleaseOrRefundOnly(s, contexts), UnauthorizedContext);
    var _ :- VerifySignatures(s, signed, AuthEntry(digest), sigs);
    SlotRule(s, sequence)
  }

  // ---- the invariant -----------------------------------------------------

  ghost predicate Inv(s: Account) {
    && 1 <= s.threshold <= s.signerCount == |s.signers| <= MAX_SIGNERS
    && GoodPolicy(s.cap, s.windowLedgers, s.maxTtl)
  }

  // ---- the account as it runs --------------------------------------------

  method ValidateConfiguration(self: Id, escrow: Id, keys: seq<Key>, threshold: nat, cap: nat, windowLedgers: nat, maxTtl: nat)
    returns (r: Outcome<Account>)
    ensures r == Construct(self, escrow, keys, threshold, cap, windowLedgers, maxTtl)
  {
    if keys == [] || |keys| > MAX_SIGNERS || threshold == 0 || threshold > |keys| { return Err(InvalidConfiguration); }
    if cap == 0 || windowLedgers == 0 || windowLedgers >= maxTtl { return Err(InvalidPolicy); }
    var stored: set<Key> := {};
    for i := 0 to |keys|
      invariant !HasDuplicates(keys[..i])
      invariant stored == Elements(keys[..i])
    {
      for j := 0 to i
        invariant keys[i] !in keys[..j]
      {
        if keys[j] == keys[i] { return Err(InvalidSignerSet); }
      }
      stored := stored + {keys[i]};
    }
    assert keys[..|keys|] == keys;
    return Ok(Account(self, escrow, threshold, stored, |keys|, 0, cap, windowLedgers, map[], maxTtl));
  }

  class ReleaserAccount {
    const self: Id
    const escrow: Id
    const maxTtl: nat
    var threshold: nat
    var signers: set<Key>
    var signerCount: nat
    var nonce: nat
    var cap: nat
    var windowLedgers: nat
    var usage: map<nat, nat>

    function Storage(): Account
      reads this
    {
      Account(self, escrow, threshold, signers, signerCount, nonce, cap, windowLedgers, usage, maxTtl)
    }

    ghost predicate Valid()
      reads this
    {
      Inv(Storage())
    }

    /** A deployment whose configuration was accepted. */
    constructor (config: Account)
      requires Inv(config)
      ensures Storage() == config && Valid()
    {
      self, escrow, maxTtl := config.self, config.escrow, config.maxTtl;
      threshold, signers, signerCount, nonce := config.threshold, config.signers, config.signerCount, config.nonce;
      cap, windowLedgers, usage := config.cap, config.windowLedgers, config.usage;
    }

    method CheckSignatures(signed: Signed, payload: Payload, sigs: seq<Signature>) returns (r: Outcome<()>)
      ensures r == VerifySignatures(Storage(), signed, payload, sigs)
    {
      if sigs == [] || |sigs| > signerCount || |sigs| > MAX_SIGNERS { return Err(InvalidSignature); }
      var valid := 0;
      for i := 0 to |sigs|
        invariant valid == i && ScanSignatures(signers, signed, payload, sigs[..i]) == Ok(())
      {
        assert sigs[..i + 1][..i] == sigs[..i];
        if sigs[i].key !in signers {
          ScanFailure(signers, signed, payload, sigs, i + 1);
          return Err(InvalidSignature);
        }
        for j := 0 to i
          invariant !KeySeen(sigs[..j], sigs[i].key)
        {
          if sigs[j].key == sigs[i].key {
            assert sigs[..i][j].key == sigs[i].key;
            ScanFailure(signers, signed, payload, sigs, i + 1);
            return Err(InvalidSignature);
          }
        }
        if !Verifies(signed, sigs[i], payload) {
          ScanFailure(signers, signed, payload, sigs, i + 1);
          return Trap;
        }
        valid := valid + 1;
      }
      assert sigs[..|sigs|] == sigs;
      return Require(valid >= threshold, InvalidSignature);
    }

    /** Changes signers, threshold or policy; every failure leaves storage alone. */
    method Manage(signed: Signed, action: Action, sigs: seq<Signature>) returns (r: Outcome<()>)
      requires Valid()
      modifies this
      ensures Valid()
      ensures match ManageRule(old(Storage()), signed, action, sigs)
              case Ok(t) => r == Ok(()) && Storage() == t
              case Err(e) => r == Err(e) && Storage() == old(Storage())
              case Trap => r == Trap && Storage() == old(Storage())
      ensures r.Ok? <==> ManageAllowed(old(Storage()), signed, action, sigs)
      ensures r.Ok? ==> ManageDid(old(Storage()), action, Storage())
    {
      hide QuorumOver;
      ManageKeepsInv(Storage(), signed, action, sigs);
      ManageMeaning(Storage(), signed, action, sigs);
      var _ :- CheckSignatures(signed, Management(self, nonce, action), sigs);
      match action {
        case AddSigner(key) =>
          if signerCount >= MAX_SIGNERS { return Err(InvalidSignerSet); }
          if key in signers { return Err(SignerAlreadyExists); }
          signers := signers + {key};
          signerCount := signerCount + 1;
        case RemoveSigner(key) =>
          if key !in signers { return Err(UnknownSigner); }
          if signerCount <= threshold { return Err(CannotRemoveBelowThreshold); }
          signers := signers - {key};
          signerCount := signerCount - 1;
        case SetThreshold(next) =>
          if next == 0 || next > signerCount { return Err(InvalidThreshold); }
          threshold := next;
        case SetPolicy(nextCap, nextWindow) =>
          if |sigs| != signerCount { return Err(InvalidSignature); }
          if nextCap == 0 || nextWindow == 0 || nextWindow >= maxTtl { return Err(InvalidPolicy); }
          cap := nextCap;
          windowLedgers := nextWindow;
      }
      nonce := nonce + 1;
      return Ok(());
    }

    method ConsumeOperationSlot(sequence: nat) returns (r: Outcome<()>)
      requires windowLedgers > 0
      modifies this`usage
      ensures match SlotRule(old(Storage()), sequence)
              case Ok(t) => r == Ok(()) && Storage() == t
              case Err(e) => r == Err(e) && Storage() == old(Storage())
              case Trap => false
    {
      var window := WindowOf(sequence, windowLedgers);
      var used := if window in usage then usage[window] else 0;
      if used >= cap { return Err(RateLimited); }
      usage := usage[window := used + 1];
      return Ok(());
    }

    method CheckAuth(signed: Signed, digest: nat, sigs: seq<Signature>, contexts: seq<Context>, sequence: nat) returns (r: Outcome<()>)
      requires Valid()
      modifies this
      ensures Valid()
      ensures match AuthRule(old(Storage()), signed, digest, sigs, contexts, sequence)
              case Ok(t) => r == Ok(()) && Storage() == t
              case Err(e) => r == Err(e) && Storage() == old(Storage())
              case Trap => r == Trap && Storage() == old(Storage())
    {
      if !ReleaseOrRefundOnly(Storage(), contexts) { return Err(UnauthorizedContext); }
      var _ :- CheckSignatures(signed, AuthEntry(digest), sigs);
      r := ConsumeOperationSlot(sequence);
    }
  }

  lemma {:induction false} ScanFailure(signers: set<Key>, signed: Signed, payload: Payload, sigs: seq<Signature>, n: nat)
    requires n <= |sigs| && ScanSignatures(signers, signed, payload, sigs[..n]).IsFailure()
    ensures ScanSignatures(signers, signed, payload, sigs) == ScanSignatures(signers, signed, payload, sigs[..n])
  {
    if n == |sigs| {
      assert sigs[..n] == sigs;
    } else {
      var before := sigs[..|sigs| - 1];
      assert before[..n] == sigs[..n];
      ScanFailure(signers, signed, payload, before, n);
    }
  }

  // ---- signer-set safety -------------------------------------------------

  function KeysOf(sigs: seq<Signature>): set<Key> { set i | 0 <= i < |sigs| :: sigs[i].key }

  ghost predicate DistinctKeys(sigs: seq<Signature>) {
    forall i, j :: 0 <= i < j < |sigs| ==> sigs[i].key != sigs[j].key
  }

  lemma {:induction false} ScanMeaning(signers: set<Key>, signed: Signed, payload: Payload, sigs: seq<Signature>)
    ensures ScanSignatures(signers, signed, payload, sigs).Ok? <==>
              && DistinctKeys(sigs)
              && forall i :: 0 <= i < |sigs| ==> sigs[i].key in signers && Verifies(signed, sigs[i], payload)
  {
    if sigs != [] {
      var n := |sigs| - 1;
      ScanMeaning(signers, signed, payload, sigs[..n]);
      assert sigs == sigs[..n] + [sigs[n]];
      assert DistinctKeys(sigs) <==> DistinctKeys(sigs[..n]) && !KeySeen(sigs[..n], sigs[n].key);
    }
  }

  lemma {:induction false} KeysCount(sigs: seq<Signature>)
    requires DistinctKeys(sigs)
    ensures |KeysOf(sigs)| == |sigs|
  {
    if sigs != [] {
      var n := |sigs| - 1;
      KeysCount(sigs[..n]);
      assert KeysOf(sigs) == KeysOf(sigs[..n]) + {sigs[n].key} by {
        forall k | k in KeysOf(sigs) ensures k in KeysOf(sigs[..n]) + {sigs[n].key} {
          var i :| 0 <= i < |sigs| && sigs[i].key == k;
          if i < n { assert sigs[..n][i].key == k; }
        }
        forall k | k in KeysOf(sigs[..n]) ensures k in KeysOf(sigs) {
          var i :| 0 <= i < n && sigs[..n][i].key == k;
          assert sigs[i].key == k;
        }
      }
    }
  }

  /**
   * An accepted signature list holds at least `threshold` distinct registered
   * keys, each of which signed this payload, and nothing else.
   */
  lemma AcceptedSignatures(s: Account, signed: Signed, payload: Payload, sigs: seq<Signature>)
    requires Inv(s)
    ensures VerifySignatures(s, signed, payload, sigs).Ok? <==>
              && s.threshold <= |sigs| <= s.signerCount
              && DistinctKeys(sigs) && KeysOf(sigs) <= s.signers
              && forall i :: 0 <= i < |sigs| ==> Verifies(signed, sigs[i], payload)
    ensures VerifySignatures(s, signed, payload, sigs).Ok? ==>
              && s.threshold <= |KeysOf(sigs)|
              && (forall k :: k in KeysOf(sigs) ==> k in s.signers && (k, payload) in signed)
  {
    ScanMeaning(s.signers, signed, payload, sigs);
    if DistinctKeys(sigs) { KeysCount(sigs); }
    assert forall i :: 0 <= i < |sigs| ==> sigs[i].key in KeysOf(sigs);
  }

  /** At least the threshold of distinct registered keys, each having signed exactly this payload. */
  predicate QuorumOver(s: Account, signed: Signed, payload: Payload, sigs: seq<Signature>) {
    && s.threshold <= |sigs| <= s.signerCount
    && (forall i, j :: 0 <= i < j < |sigs| ==> sigs[i].key != sigs[j].key)
    && forall i :: 0 <= i < |sigs| ==> sigs[i].key in s.signers && sigs[i].over == payload && (sigs[i].key, payload) in signed
  }

  /** What each action needs beside its signatures. */
  predicate ActionAllowed(s: Account, action: Action, sigs: seq<Signature>) {
    match action
    case AddSigner(key) => s.signerCount < 20 && key !in s.signers
    case RemoveSigner(key) => key in s.signers && s.signerCount > s.threshold
    case SetThreshold(threshold) => 1 <= threshold <= s.signerCount
    case SetPolicy(cap, windowLedgers) => |sigs| == s.signerCount && cap > 0 && 0 < windowLedgers < s.maxTtl
  }

  /** A management call needs a quorum over this account's address, its current nonce and this very action. */
  predicate ManageAllowed(s: Account, signed: Signed, action: Action, sigs: seq<Signature>) {
    QuorumOver(s, signed, Management(s.self, s.nonce, action), sigs) && ActionAllowed(s, action, sigs)
  }

  /** Each action changes what it names, the nonce rises by one, and nothing else changes. */
  predicate ManageDid(s: Account, action: Action, t: Account) {
    match action
    case AddSigner(key) => t == s.(signers := s.signers + {key}, signerCount := s.signerCount + 1, nonce := s.nonce + 1)
    case RemoveSigner(key) => s.signerCount > 0 && t == s.(signers := s.signers - {key}, signerCount := s.signerCount - 1, nonce := s.nonce + 1)
    case SetThreshold(threshold) => t == s.(threshold := threshold, nonce := s.nonce + 1)
    case SetPolicy(cap, windowLedgers) => t == s.(cap := cap, windowLedgers := windowLedgers, nonce := s.nonce + 1)
  }

  /** The error is true of the action and the account. */
  predicate ManageExplains(s: Account, signed: Signed, action: Action, sigs: seq<Signature>, error: Error) {
    match error
    case InvalidSignature =>
      !QuorumOver(s, signed, Management(s.self, s.nonce, action), sigs) || (action.SetPolicy? && |sigs| != s.signerCount)
    case InvalidSignerSet => action.AddSigner? && s.signerCount >= 20
    case SignerAlreadyExists => action.AddSigner? && action.key in s.signers
    case UnknownSigner => action.RemoveSigner? && action.key !in s.signers
    case CannotRemoveBelowThreshold => action.RemoveSigner? && s.signerCount <= s.threshold
    case InvalidThreshold => action.SetThreshold? && (action.threshold == 0 || action.threshold > s.signerCount)
    case InvalidPolicy => action.SetPolicy? && (action.cap == 0 || action.windowLedgers == 0 || action.windowLedgers >= s.maxTtl)
    case _ => false
  }

  lemma QuorumMeaning(s: Account, signed: Signed, payload: Payload, sigs: seq<Signature>)
    requires Inv(s)
    ensures VerifySignatures(s, signed, payload, sigs).Ok? <==> QuorumOver(s, signed, payload, sigs)
    ensures VerifySignatures(s, signed, payload, sigs).Err? ==> VerifySignatures(s, signed, payload, sigs).error == InvalidSignature
  {
    ScanMeaning(s.signers, signed, payload, sigs);
    ScanErrors(s.signers, signed, payload, sigs);
  }

  lemma {:induction false} ScanErrors(signers: set<Key>, signed: Signed, payload: Payload, sigs: seq<Signature>)
    ensures ScanSignatures(signers, signed, payload, sigs).Err? ==> ScanSignatures(signers, signed, payload, sigs).error == InvalidSignature
  {
    if sigs != [] { ScanErrors(signers, signed, payload, sigs[..|sigs| - 1]); }
  }

  /** When a management call succeeds, what it does, and what its errors mean. */
  lemma ManageMeaning(s: Account, signed: Signed, action: Action, sigs: seq<Signature>)
    requires Inv(s)
    ensures match ManageRule(s, signed, action, sigs)
            case Ok(t) => ManageAllowed(s, signed, action, sigs) && ManageDid(s, action, t)
            case Err(error) => !ManageAllowed(s, signed, action, sigs) && ManageExplains(s, signed, action, sigs, error)
            case Trap => !QuorumOver(s, signed, Management(s.self, s.nonce, action), sigs)
  {
    hide VerifySignatures, QuorumOver;
    QuorumMeaning(s, signed, Management(s.self, s.nonce, action), sigs);
  }

  /** A policy change carries the signature of every registered signer: a count that leaves nobody out. */
  lemma PolicyNeedsEverySigner(s: Account, signed: Signed, cap: nat, windowLedgers: nat, sigs: seq<Signature>)
    requires Inv(s) && ManageRule(s, signed, SetPolicy(cap, windowLedgers), sigs).Ok?
    ensures KeysOf(sigs) == s.signers
    ensures forall k :: k in s.signers ==> (k, Management(s.self, s.nonce, SetPolicy(cap, windowLedgers))) in signed
  {
    AcceptedSignatures(s, signed, Management(s.self, s.nonce, SetPolicy(cap, windowLedgers)), sigs);
    KeysCount(sigs);
    SubsetCount(KeysOf(sigs), s.signers);
  }

  /** A deployment succeeds exactly on a valid configuration and stores it as given. */
  lemma ConstructMeaning(self: Id, escrow: Id, keys: seq<Key>, threshold: nat, cap: nat, windowLedgers: nat, maxTtl: nat)
    ensures var r := Construct(self, escrow, keys, threshold, cap, windowLedgers, maxTtl);
            && (r.Ok? <==>
                  && 1 <= |keys| <= 20 && 1 <= threshold <= |keys|
                  && cap > 0 && 0 < windowLedgers < maxTtl
                  && (forall i, j :: 0 <= i < j < |keys| ==> keys[i] != keys[j]))
            && (r.Ok? ==>
                  && r.value.self == self && r.value.escrow == escrow && r.value.maxTtl == maxTtl
                  && r.value.threshold == threshold && r.value.cap == cap && r.value.windowLedgers == windowLedgers
                  && r.value.signerCount == |keys| && (forall k :: k in keys <==> k in r.value.signers)
                  && r.value.nonce == 0 && r.value.usage == map[])
            && (r.Err? ==> match r.error
                           case InvalidConfiguration => !(1 <= |keys| <= 20 && 1 <= threshold <= |keys|)
                           case InvalidPolicy => !(cap > 0 && 0 < windowLedgers < maxTtl)
                           case InvalidSignerSet => exists i, j :: 0 <= i < j < |keys| && keys[i] == keys[j]
                           case _ => false)
            && r != Trap
  {
  }

  lemma ConstructedInv(self: Id, escrow: Id, keys: seq<Key>, threshold: nat, cap: nat, windowLedgers: nat, maxTtl: nat)
    ensures var r := Construct(self, escrow, keys, threshold, cap, windowLedgers, maxTtl);
            r.Ok? ==> Inv(r.value) && r.value.nonce == 0 && (forall k :: k in keys <==> k in r.value.signers)
  {
    if !HasDuplicates(keys) { DistinctCount(keys); }
  }

  lemma ManageKeepsInv(s: Account, signed: Signed, action: Action, sigs: seq<Signature>)
    requires Inv(s)
    ensures var r := ManageRule(s, signed, action, sigs);
            r.Ok? ==> Inv(r.value) && r.value.nonce == s.nonce + 1 && r.value.self == s.self && r.value.usage == s.usage
    ensures !ManageRule(s, signed, action, sigs).Ok? || action.SetPolicy?
            || (ManageRule(s, signed, action, sigs).value.cap == s.cap && ManageRule(s, signed, action, sigs).value.windowLedgers == s.windowLedgers)
  {
  }

  // ---- runs --------------------------------------------------------------

  datatype Step =
    | Managing(action: Action, sigs: seq<Signature>)
    | Authorizing(digest: nat, sigs: seq<Signature>, contexts: seq<Context>, sequence: nat)

  function Attempt(s: Account, signed: Signed, step: Step): Outcome<Account> {
    match step
    case Managing(action, sigs) => ManageRule(s, signed, action, sigs)
    case Authorizing(digest, sigs, contexts, sequence) => AuthRule(s, signed, digest, sigs, contexts, sequence)
  }

  /** A failed call is rolled back. */
  function Take(s: Account, signed: Signed, step: Step): Account {
    var r := Attempt(s, signed, step);
    if r.Ok? then r.value else s
  }

  function Run(s: Account, signed: Signed, steps: seq<Step>): Account {
    if steps == [] then s else Take(Run(s, signed, steps[..|steps| - 1]), signed, steps[|steps| - 1])
  }

  lemma TakeKeepsInv(s: Account, signed: Signed, step: Step)
    requires Inv(s)
    ensures Inv(Take(s, signed, step))
  {
    if step.Managing? { ManageKeepsInv(s, signed, step.action, step.sigs); }
  }

  /** Every reachable account has 1 <= threshold <= signer count = registered keys <= 20. */
  lemma {:induction false} RunKeepsInv(s: Account, signed: Signed, steps: seq<Step>)
    requires Inv(s)
    ensures Inv(Run(s, signed, steps))
  {
    if steps != [] {
      RunKeepsInv(s, signed, steps[..|steps| - 1]);
      TakeKeepsInv(Run(s, signed, steps[..|steps| - 1]), signed, steps[|steps| - 1]);
    }
  }

  /** The payloads that successful management actions of a run were signed for, in order. */
  function Consumed(s: Account, signed: Signed, steps: seq<Step>): seq<Payload> {
    if steps == [] then []
    else
      var n := |steps| - 1;
      var t, step := Run(s, signed, steps[..n]), steps[n];
      Consumed(s, signed, steps[..n])
      + if step.Managing? && ManageRule(t, signed, step.action, step.sigs).Ok? then [Management(t.self, t.nonce, step.action)] else []
  }

  /** No replay: a signed digest authorizes at most one management action in any run. */
  lemma {:induction false} DigestsUsedOnce(s: Account, signed: Signed, steps: seq<Step>)
    requires Inv(s)
    ensures var used := Consumed(s, signed, steps);
            && Run(s, signed, steps).nonce == s.nonce + |used|
            && Run(s, signed, steps).self == s.self
            && (forall i :: 0 <= i < |used| ==> used[i].Management? && used[i].account == s.self && used[i].nonce == s.nonce + i)
            && (forall i, j :: 0 <= i < j < |used| ==> used[i] != used[j])
  {
    if steps != [] {
      var n := |steps| - 1;
      DigestsUsedOnce(s, signed, steps[..n]);
      RunKeepsInv(s, signed, steps[..n]);
      var t, step := Run(s, signed, steps[..n]), steps[n];
      hide ManageRule, VerifySignatures, ReleaseOrRefundOnly, Inv;
      if step.Managing? { ManageKeepsInv(t, signed, step.action, step.sigs); }
    }
  }

  // ---- the rate limit ----------------------------------------------------

  ghost predicate Granted(s: Account, signed: Signed, step: Step) {
    step.Authorizing? && Attempt(s, signed, step).Ok?
  }

  ghost predicate ChangesPolicy(s: Account, signed: Signed, step: Step) {
    step.Managing? && step.action.SetPolicy? && Attempt(s, signed, step).Ok?
  }

  /** No policy change succeeds during the run. */
  ghost predicate SamePolicy(s: Account, signed: Signed, steps: seq<Step>) {
    steps == []
    || (SamePolicy(s, signed, steps[..|steps| - 1])
        && !ChangesPolicy(Run(s, signed, steps[..|steps| - 1]), signed, steps[|steps| - 1]))
  }

  /** Authorizations granted at ledgers from `lo` up to but excluding `hi`. */
  ghost function GrantedIn(s: Account, signed: Signed, steps: seq<Step>, lo: nat, hi: nat): nat {
    if steps == [] then 0
    else
      var n := |steps| - 1;
      GrantedIn(s, signed, steps[..n], lo, hi)
      + if Granted(Run(s, signed, steps[..n]), signed, steps[n]) && lo <= steps[n].sequence < hi then 1 else 0
  }

  /** Authorizations granted in aligned window `w`. */
  ghost function GrantedInWindow(s: Account, signed: Signed, steps: seq<Step>, w: nat): nat
    requires s.windowLedgers > 0
  {
    if steps == [] then 0
    else
      var n := |steps| - 1;
      GrantedInWindow(s, signed, steps[..n], w)
      + if Granted(Run(s, signed, steps[..n]), signed, steps[n]) && WindowOf(steps[n].sequence, s.windowLedgers) == w then 1 else 0
  }

  lemma TakeUsage(s: Account, signed: Signed, step: Step, w: nat)
    requires Inv(s) && !ChangesPolicy(s, signed, step)
    ensures var t := Take(s, signed, step);
            var hit := Granted(s, signed, step) && WindowOf(step.sequence, s.windowLedgers) == w;
            && t.cap == s.cap && t.windowLedgers == s.windowLedgers
            && Usage(t, w) == Usage(s, w) + (if hit then 1 else 0)
            && (hit ==> Usage(t, w) <= s.cap)
  {
    hide VerifySignatures, ReleaseOrRefundOnly, WindowOf;
  }

  /**
   * Between two policy changes at most `cap` authorizations succeed in any
   * aligned window, whatever counters an older window size left behind.
   */
  lemma {:induction false} WindowCap(s: Account, signed: Signed, steps: seq<Step>, w: nat)
    requires Inv(s) && SamePolicy(s, signed, steps)
    ensures var t, granted := Run(s, signed, steps), GrantedInWindow(s, signed, steps, w);
            && t.cap == s.cap && t.windowLedgers == s.windowLedgers
            && Usage(t, w) == Usage(s, w) + granted
            && (granted > 0 ==> Usage(t, w) <= s.cap)
            && granted <= s.cap
  {
    hide Take, Granted, ChangesPolicy, WindowOf, Usage;
    if steps != [] {
      var n := |steps| - 1;
      WindowCap(s, signed, steps[..n], w);
      RunKeepsInv(s, signed, steps[..n]);
      TakeUsage(Run(s, signed, steps[..n]), signed, steps[n], w);
    }
  }

  ghost function GrantedInWindows(s: Account, signed: Signed, steps: seq<Step>, first: nat, count: nat): nat
    requires s.windowLedgers > 0
  {
    if count == 0 then 0
    else GrantedInWindows(s, signed, steps, first, count - 1) + GrantedInWindow(s, signed, steps, first + count - 1)
  }

  lemma {:induction false} WindowsCap(s: Account, signed: Signed, steps: seq<Step>, first: nat, count: nat)
    requires Inv(s) && SamePolicy(s, signed, steps)
    ensures GrantedInWindows(s, signed, steps, first, count) <= count * s.cap
  {
    if count > 0 {
      WindowsCap(s, signed, steps, first, count - 1);
      WindowCap(s, signed, steps, first + count - 1);
      assert count * s.cap == (count - 1) * s.cap + s.cap;
    }
  }

  lemma {:induction false} DivShift(x: nat, k: nat, w: nat)
    requires w > 0
    ensures (x + k * w) / w == x / w + k
  {
    if k > 0 {
      DivShift(x, k - 1, w);
      assert x + k * w == (x + (k - 1) * w) + w;
      DivStep(x + (k - 1) * w, w);
    }
  }

  /** Quotient and remainder are unique. */
  lemma DivUnique(x: nat, q: nat, r: nat, w: nat)
    requires r < w && x == q * w + r
    ensures x / w == q
  {
    var p, t := x / w, x % w;
    assert x == p * w + t && t < w;
    MulOrder(p, q + 1, w);
    MulOrder(q, p + 1, w);
    assert (q + 1) * w == q * w + w && (p + 1) * w == p * w + w;
  }

  lemma DivStep(y: nat, w: nat)
    requires w > 0
    ensures (y + w) / w == y / w + 1
  {
    var q, r := y / w, y % w;
    assert (q + 1) * w == q * w + w;
    DivUnique(y + w, q + 1, r, w);
  }

  lemma DivMonotone(x: nat, y: nat, w: nat)
    requires w > 0 && x <= y
    ensures x / w <= y / w
  {
    var p, q := x / w, y / w;
    assert x == p * w + x % w && y == q * w + y % w;
    MulOrder(p, q + 1, w);
    assert (q + 1) * w == q * w + w;
  }

  lemma MulOrder(a: nat, b: nat, w: nat)
    ensures a >= b ==> a * w >= b * w
  {
    if a >= b { assert a * w == b * w + (a - b) * w; }
  }

  /** Ledgers fewer than `k` windows apart lie in at most `k + 1` aligned windows. */
  lemma WindowSpan(lo: nat, sequence: nat, k: nat, w: nat)
    requires w > 0 && lo <= sequence < lo + k * w
    ensures WindowOf(lo, w) <= WindowOf(sequence, w) <= WindowOf(lo, w) + k
  {
    var a, b := if lo == 0 then 0 else lo - 1, if sequence == 0 then 0 else sequence - 1;
    DivMonotone(a, b, w);
    DivMonotone(b, a + k * w, w);
    DivShift(a, k, w);
  }

  /** One more step adds to the count of the one window it falls in. */
  lemma {:induction false} WindowsStep(s: Account, signed: Signed, steps: seq<Step>, first: nat, count: nat)
    requires s.windowLedgers > 0 && steps != []
    ensures var n := |steps| - 1;
            var hit := Granted(Run(s, signed, steps[..n]), signed, steps[n]);
            GrantedInWindows(s, signed, steps, first, count)
            == GrantedInWindows(s, signed, steps[..n], first, count)
             + if hit && first <= WindowOf(steps[n].sequence, s.windowLedgers) < first + count then 1 else 0
  {
    hide Granted, WindowOf;
    if count > 0 { WindowsStep(s, signed, steps, first, count - 1); }
  }

  lemma {:induction false} SpanCovered(s: Account, signed: Signed, steps: seq<Step>, lo: nat, k: nat)
    requires Inv(s) && SamePolicy(s, signed, steps)
    ensures GrantedIn(s, signed, steps, lo, lo + k * s.windowLedgers)
         <= GrantedInWindows(s, signed, steps, WindowOf(lo, s.windowLedgers), k + 1)
  {
    hide WindowOf, Run, Granted, ChangesPolicy;
    var w := s.windowLedgers;
    if steps == [] {
    } else {
      var n := |steps| - 1;
      SpanCovered(s, signed, steps[..n], lo, k);
      WindowsStep(s, signed, steps, WindowOf(lo, w), k + 1);
      if steps[n].Authorizing? && lo <= steps[n].sequence < lo + k * w {
        WindowSpan(lo, steps[n].sequence, k, w);
      }
      GrantedAuthorizes(Run(s, signed, steps[..n]), signed, steps[n]);
    }
  }

  lemma GrantedAuthorizes(s: Account, signed: Signed, step: Step)
    ensures Granted(s, signed, step) ==> step.Authorizing?
  {
  }

  /** In any `k * window_ledgers` consecutive ledgers at most `(k + 1) * cap` authorizations succeed. */
  lemma IntervalCap(s: Account, signed: Signed, steps: seq<Step>, lo: nat, k: nat)
    requires Inv(s) && SamePolicy(s, signed, steps)
    ensures GrantedIn(s, signed, steps, lo, lo + k * s.windowLedgers) <= (k + 1) * s.cap
  {
    SpanCovered(s, signed, steps, lo, k);
    WindowsCap(s, signed, steps, WindowOf(lo, s.windowLedgers), k + 1);
  }

  /** The one context is a call of the bound escrow's `release` or `refund` with this account as the caller. */
  predicate InScope(s: Account, contexts: seq<Context>) {
    && |contexts| == 1
    && match contexts[0]
       case ContractCall(target, fn, args) =>
         target == s.escrow && fn in {"release", "refund"} && |args| == 2 && args[1] == AddressArg(s.self)
       case CreateContract => false
  }

  /** Operations already counted in the window that ledger `sequence` falls in. */
  function UsedAt(s: Account, sequence: nat): nat
    requires s.windowLedgers > 0
  {
    var w := (if sequence == 0 then 0 else sequence - 1) / s.windowLedgers;
    if w in s.usage then s.usage[w] else 0
  }

  /** An authorization is granted exactly for one release or refund of the bound escrow made as this account,
      signed by a quorum, with room left in the window; it is then counted there and nothing else changes. */
  lemma GrantMeaning(s: Account, signed: Signed, digest: nat, sigs: seq<Signature>, contexts: seq<Context>, sequence: nat)
    requires Inv(s)
    ensures var r := AuthRule(s, signed, digest, sigs, contexts, sequence);
            && (r.Ok? <==>
                  InScope(s, contexts) && QuorumOver(s, signed, AuthEntry(digest), sigs) && UsedAt(s, sequence) < s.cap)
            && (r.Ok? ==>
                  var w := (if sequence == 0 then 0 else sequence - 1) / s.windowLedgers;
                  r.value == s.(usage := s.usage[w := UsedAt(s, sequence) + 1]))
            && (r.Err? ==> match r.error
                           case UnauthorizedContext => !InScope(s, contexts)
                           case InvalidSignature => !QuorumOver(s, signed, AuthEntry(digest), sigs)
                           case RateLimited => UsedAt(s, sequence) >= s.cap
                           case _ => false)
            && (r == Trap ==> !QuorumOver(s, signed, AuthEntry(digest), sigs))
  {
    hide VerifySignatures, QuorumOver;
    QuorumMeaning(s, signed, AuthEntry(digest), sigs);
  }
}
